/**
 Replying to a received method call: a METHOD_RETURN with arguments, or a
 METHOD_ERROR from an error, a name and a formatted text, or an errno. A
 call that asked for no reply is answered with success and no message.
 */
module Replies {
  import opened Wrappers
  import opened BusTypes
  import opened Validation
  import opened Messages
  import opened Calls

  /** The NO_REPLY_EXPECTED header flag of the call. */
  predicate NoReplyExpected(call: Received) {
    call.flags & NO_REPLY_EXPECTED != 0
  }

  /** A METHOD_RETURN correlated to `call`: addressed to its sender, in reply to its serial. */
  function ReturnHeader(call: Received): Header {
    Header(MethodReturn, call.sender, None, None, None, Some(call.serial), None)
  }

  /** A METHOD_ERROR correlated to `call`, carrying `e`. */
  function ErrorHeader(call: Received, e: BusError): Header {
    Header(MethodError, call.sender, None, None, None, Some(call.serial), Some(e))
  }

  /** sd_bus_reply_method_return. */
  function ReplyReturnSpec(engine: Engine, call: Option<Received>, types: Option<string>, values: seq<Value>): (o: Outcome)
    ensures ReplyGuard(call, true, engine.currentPid) < 0 ==>
              o == Outcome(ReplyGuard(call, true, engine.currentPid), [])
    ensures ReplyGuard(call, true, engine.currentPid) == 0 && NoReplyExpected(call.value) ==> o == Outcome(0, [])
    ensures o.events == []
            || (call.Some? && o.events == [Sent(Wire(ReturnHeader(call.value), Arguments(types, values)))])
    ensures o.events != [] <==>
              ReplyGuard(call, true, engine.currentPid) == 0 && !NoReplyExpected(call.value)
              && Build(engine, ReturnHeader(call.value), Arguments(types, values)).Built?
    ensures ReplyGuard(call, true, engine.currentPid) == 0 && !NoReplyExpected(call.value)
            && Build(engine, ReturnHeader(call.value), Arguments(types, values)).Failed? ==>
              o.rc == Build(engine, ReturnHeader(call.value), Arguments(types, values)).status
    ensures o.events != [] ==> o.rc == engine.send(o.events[0].message)
  {
    var g := ReplyGuard(call, true, engine.currentPid);
    if g < 0 then Outcome(g, [])
    else if NoReplyExpected(call.value) then Outcome(0, [])
    else
      match Build(engine, ReturnHeader(call.value), Arguments(types, values))
      case Failed(r) => Outcome(r, [])
      case Built(w) => Outcome(engine.send(w), [Sent(w)])
  }

  method ReplyMethodReturn(t: Transport, call: Option<Received>, types: Option<string>, values: seq<Value>)
    returns (r: int)
    modifies t
    ensures r == ReplyReturnSpec(t.engine, call, types, values).rc
    ensures t.trace == old(t.trace) + ReplyReturnSpec(t.engine, call, types, values).events
  {
    r := ReplyGuard(call, true, t.engine.currentPid);
    if r < 0 {
      return;
    }
    if NoReplyExpected(call.value) {
      return 0;
    }
    var m: Builder?;
    r, m := NewMessage(ReturnHeader(call.value), t.engine);
    if r < 0 {
      return;
    }
    if !IsEmpty(types) {
      r := m.Append(types.value, values);
      if r < 0 {
        return;
      }
    }
    r := t.Send(m.Snapshot());
  }

  /** sd_bus_reply_method_error: an unset error is refused before the
      connection and the no-reply flag are looked at. */
  function ReplyErrorSpec(engine: Engine, call: Option<Received>, e: Option<BusError>): (o: Outcome)
    ensures ReplyGuard(call, IsSet(e), engine.currentPid) < 0 ==>
              o == Outcome(ReplyGuard(call, IsSet(e), engine.currentPid), [])
    ensures ReplyGuard(call, IsSet(e), engine.currentPid) == 0 && NoReplyExpected(call.value) ==> o == Outcome(0, [])
    ensures o.events == []
            || (call.Some? && e.Some? && o.events == [Sent(Wire(ErrorHeader(call.value, e.value), []))])
    ensures o.events != [] <==>
              ReplyGuard(call, IsSet(e), engine.currentPid) == 0 && !NoReplyExpected(call.value)
              && engine.newMessage(ErrorHeader(call.value, e.value)) >= 0
    ensures ReplyGuard(call, IsSet(e), engine.currentPid) == 0 && !NoReplyExpected(call.value)
            && engine.newMessage(ErrorHeader(call.value, e.value)) < 0 ==>
              o == Outcome(engine.newMessage(ErrorHeader(call.value, e.value)), [])
    ensures o.events != [] ==> o.rc == engine.send(o.events[0].message)
  {
    var g := ReplyGuard(call, IsSet(e), engine.currentPid);
    if g < 0 then Outcome(g, [])
    else if NoReplyExpected(call.value) then Outcome(0, [])
    else
      match Build(engine, ErrorHeader(call.value, e.value), [])
      case Failed(r) => Outcome(r, [])
      case Built(w) => Outcome(engine.send(w), [Sent(w)])
  }

  method ReplyMethodError(t: Transport, call: Option<Received>, e: Option<BusError>) returns (r: int)
    modifies t
    ensures r == ReplyErrorSpec(t.engine, call, e).rc
    ensures t.trace == old(t.trace) + ReplyErrorSpec(t.engine, call, e).events
  {
    r := ReplyGuard(call, IsSet(e), t.engine.currentPid);
    if r < 0 {
      return;
    }
    if NoReplyExpected(call.value) {
      return 0;
    }
    var m: Builder?;
    r, m := NewMessage(ErrorHeader(call.value, e.value), t.engine);
    if r < 0 {
      return;
    }
    r := t.Send(m.Snapshot());
  }

  /** sd_bus_reply_method_errorf: the transient error built from the name and
      the formatted text is handed to sd_bus_reply_method_error. */
  function ReplyErrorfSpec(engine: Engine, call: Option<Received>, name: Option<string>, format: string): (o: Outcome)
    ensures ReplyGuard(call, true, engine.currentPid) < 0 ==>
              o == Outcome(ReplyGuard(call, true, engine.currentPid), [])
    ensures ReplyGuard(call, true, engine.currentPid) == 0 && NoReplyExpected(call.value) ==> o == Outcome(0, [])
    ensures o.events == [] || (call.Some? && o.events == [Sent(Wire(ErrorHeader(call.value, engine.formatError(name, format)), []))])
    ensures o.events != [] <==>
              ReplyGuard(call, true, engine.currentPid) == 0 && !NoReplyExpected(call.value)
              && IsSet(Some(engine.formatError(name, format))) && engine.newMessage(ErrorHeader(call.value, engine.formatError(name, format))) >= 0
    ensures ReplyGuard(call, true, engine.currentPid) == 0 && !NoReplyExpected(call.value) && !IsSet(Some(engine.formatError(name, format))) ==>
              o == Outcome(-EINVAL, [])
    ensures ReplyGuard(call, true, engine.currentPid) == 0 && !NoReplyExpected(call.value) && IsSet(Some(engine.formatError(name, format)))
            && engine.newMessage(ErrorHeader(call.value, engine.formatError(name, format))) < 0 ==>
              o == Outcome(engine.newMessage(ErrorHeader(call.value, engine.formatError(name, format))), [])
    ensures o.events != [] ==> o.rc == engine.send(o.events[0].message)
  {
    var g := ReplyGuard(call, true, engine.currentPid);
    if g < 0 then Outcome(g, [])
    else if NoReplyExpected(call.value) then Outcome(0, [])
    else ReplyErrorSpec(engine, call, Some(engine.formatError(name, format)))
  }

  method ReplyMethodErrorf(t: Transport, call: Option<Received>, name: Option<string>, format: string)
    returns (r: int)
    modifies t
    ensures r == ReplyErrorfSpec(t.engine, call, name, format).rc
    ensures t.trace == old(t.trace) + ReplyErrorfSpec(t.engine, call, name, format).events
  {
    r := ReplyGuard(call, true, t.engine.currentPid);
    if r < 0 {
      return;
    }
    if NoReplyExpected(call.value) {
      return 0;
    }
    var error := t.engine.formatError(name, format);
    r := ReplyMethodError(t, call, Some(error));
  }

  /** The error sd_bus_reply_method_errno replies with: the caller's error
      when it is set, otherwise the one the errno mapping gives. */
  function ErrnoReplyError(engine: Engine, errno: int, p: Option<BusError>): BusError {
    if IsSet(p) then p.value else engine.errnoError(errno)
  }

  /** sd_bus_reply_method_errno: a METHOD_ERROR carrying the caller's error
      when it is set, otherwise the error the errno maps to; a mapping that
      leaves the error unset is refused by the error reply with -EINVAL. */
  function ReplyErrnoSpec(engine: Engine, call: Option<Received>, errno: int, p: Option<BusError>): (o: Outcome)
    ensures ReplyGuard(call, true, engine.currentPid) < 0 ==>
              o == Outcome(ReplyGuard(call, true, engine.currentPid), [])
    ensures ReplyGuard(call, true, engine.currentPid) == 0 && NoReplyExpected(call.value) ==> o == Outcome(0, [])
    ensures o.events == [] || (call.Some? && o.events == [Sent(Wire(ErrorHeader(call.value, ErrnoReplyError(engine, errno, p)), []))])
    ensures o.events != [] <==>
              ReplyGuard(call, true, engine.currentPid) == 0 && !NoReplyExpected(call.value)
              && IsSet(Some(ErrnoReplyError(engine, errno, p))) && engine.newMessage(ErrorHeader(call.value, ErrnoReplyError(engine, errno, p))) >= 0
    ensures ReplyGuard(call, true, engine.currentPid) == 0 && !NoReplyExpected(call.value) && !IsSet(Some(ErrnoReplyError(engine, errno, p))) ==>
              o == Outcome(-EINVAL, [])
    ensures ReplyGuard(call, true, engine.currentPid) == 0 && !NoReplyExpected(call.value) && IsSet(Some(ErrnoReplyError(engine, errno, p)))
            && engine.newMessage(ErrorHeader(call.value, ErrnoReplyError(engine, errno, p))) < 0 ==>
              o == Outcome(engine.newMessage(ErrorHeader(call.value, ErrnoReplyError(engine, errno, p))), [])
    ensures o.events != [] ==> o.rc == engine.send(o.events[0].message)
  {
    var g := ReplyGuard(call, true, engine.currentPid);
    if g < 0 then Outcome(g, [])
    else if NoReplyExpected(call.value) then Outcome(0, [])
    else ReplyErrorSpec(engine, call, Some(ErrnoReplyError(engine, errno, p)))
  }

  method ReplyMethodErrno(t: Transport, call: Option<Received>, errno: int, p: Option<BusError>)
    returns (r: int)
    modifies t
    ensures r == ReplyErrnoSpec(t.engine, call, errno, p).rc
    ensures t.trace == old(t.trace) + ReplyErrnoSpec(t.engine, call, errno, p).events
  {
    r := ReplyGuard(call, true, t.engine.currentPid);
    if r < 0 {
      return;
    }
    if NoReplyExpected(call.value) {
      return 0;
    }
    if IsSet(p) {
      r := ReplyMethodError(t, call, p);
      return;
    }
    var berror := t.engine.errnoError(errno);
    r := ReplyMethodError(t, call, Some(berror));
  }

  /** sd_bus_reply_method_errnof: a METHOD_ERROR carrying the error built
      from the errno and the formatted text. */
  function ReplyErrnofSpec(engine: Engine, call: Option<Received>, errno: int, format: string): (o: Outcome)
    ensures ReplyGuard(call, true, engine.currentPid) < 0 ==>
              o == Outcome(ReplyGuard(call, true, engine.currentPid), [])
    ensures ReplyGuard(call, true, engine.currentPid) == 0 && NoReplyExpected(call.value) ==> o == Outcome(0, [])
    ensures o.events == [] || (call.Some? && o.events == [Sent(Wire(ErrorHeader(call.value, engine.errnoFormatError(errno, format)), []))])
    ensures o.events != [] <==>
              ReplyGuard(call, true, engine.currentPid) == 0 && !NoReplyExpected(call.value)
              && IsSet(Some(engine.errnoFormatError(errno, format))) && engine.newMessage(ErrorHeader(call.value, engine.errnoFormatError(errno, format))) >= 0
    ensures ReplyGuard(call, true, engine.currentPid) == 0 && !NoReplyExpected(call.value) && !IsSet(Some(engine.errnoFormatError(errno, format))) ==>
              o == Outcome(-EINVAL, [])
    ensures ReplyGuard(call, true, engine.currentPid) == 0 && !NoReplyExpected(call.value) && IsSet(Some(engine.errnoFormatError(errno, format)))
            && engine.newMessage(ErrorHeader(call.value, engine.errnoFormatError(errno, format))) < 0 ==>
              o == Outcome(engine.newMessage(ErrorHeader(call.value, engine.errnoFormatError(errno, format))), [])
    ensures o.events != [] ==> o.rc == engine.send(o.events[0].message)
  {
    var g := ReplyGuard(call, true, engine.currentPid);
    if g < 0 then Outcome(g, [])
    else if NoReplyExpected(call.value) then Outcome(0, [])
    else ReplyErrorSpec(engine, call, Some(engine.errnoFormatError(errno, format)))
  }

  method ReplyMethodErrnof(t: Transport, call: Option<Received>, errno: int, format: string)
    returns (r: int)
    modifies t
    ensures r == ReplyErrnofSpec(t.engine, call, errno, format).rc
    ensures t.trace == old(t.trace) + ReplyErrnofSpec(t.engine, call, errno, format).events
  {
    r := ReplyGuard(call, true, t.engine.currentPid);
    if r < 0 {
      return;
    }
    if NoReplyExpected(call.value) {
      return 0;
    }
    var berror := t.engine.errnoFormatError(errno, format);
    r := ReplyMethodError(t, call, Some(berror));
  }

  /** The five reply operations for one call, as one value. */
  datatype ReplyRequest =
    | Return(types: Option<string>, values: seq<Value>)
    | ReplyWithError(e: Option<BusError>)
    | Errorf(name: Option<string>, format: string)
    | Errno(errno: int, p: Option<BusError>)
    | Errnof(errno: int, format: string)

  function ReplySpec(engine: Engine, call: Option<Received>, request: ReplyRequest): Outcome {
    match request
    case Return(types, values) => ReplyReturnSpec(engine, call, types, values)
    case ReplyWithError(e) => ReplyErrorSpec(engine, call, e)
    case Errorf(name, format) => ReplyErrorfSpec(engine, call, name, format)
    case Errno(errno, p) => ReplyErrnoSpec(engine, call, errno, p)
    case Errnof(errno, format) => ReplyErrnofSpec(engine, call, errno, format)
  }

  /** Every reply variant checks the call and its connection before anything
      else: a failed check is returned and nothing is sent. */
  lemma RepliesCheckFirst(engine: Engine, call: Option<Received>, request: ReplyRequest)
    requires ReplyGuard(call, true, engine.currentPid) < 0
    ensures ReplySpec(engine, call, request).rc < 0
    ensures ReplySpec(engine, call, request).events == []
    ensures !request.ReplyWithError? ==>
              ReplySpec(engine, call, request).rc == ReplyGuard(call, true, engine.currentPid)
  {
  }

  /** A call carrying NO_REPLY_EXPECTED is answered by every reply variant with
      0 and no message (for sd_bus_reply_method_error, once its error is set). */
  lemma NoReplyExpectedSuppressesReplies(engine: Engine, call: Received, request: ReplyRequest)
    requires ReplyGuard(Some(call), true, engine.currentPid) == 0 && NoReplyExpected(call)
    requires request.ReplyWithError? ==> IsSet(request.e)
    ensures ReplySpec(engine, Some(call), request) == Outcome(0, [])
  {
  }

  /** sd_bus_reply_method_error with an unset error gives -EINVAL and sends
      nothing, whatever the connection and the no-reply flag. */
  lemma UnsetErrorRefused(engine: Engine, call: Received, e: Option<BusError>)
    requires call.sealed && call.kind == MethodCall && !IsSet(e)
    ensures ReplyErrorSpec(engine, Some(call), e) == Outcome(-EINVAL, [])
  {
  }

  /** sd_bus_reply_method_errno forwards a set caller error verbatim and
      otherwise the error the errno mapping gives. */
  lemma ErrnoErrorPrecedence(engine: Engine, call: Received, errno: int, p: Option<BusError>)
    requires ReplyGuard(Some(call), true, engine.currentPid) == 0 && !NoReplyExpected(call)
    ensures ReplyErrnoSpec(engine, Some(call), errno, p)
            == ReplyErrorSpec(engine, Some(call), Some(ErrnoReplyError(engine, errno, p)))
    ensures IsSet(p) ==> ReplyErrnoSpec(engine, Some(call), errno, p) == ReplyErrorSpec(engine, Some(call), p)
  {
  }

  /** sd_bus_reply_method_errorf is the error reply with the error built
      from the name and the formatted text, whatever that reply gives. */
  lemma ErrorfIsErrorReply(engine: Engine, call: Received, name: Option<string>, format: string)
    requires ReplyGuard(Some(call), true, engine.currentPid) == 0 && !NoReplyExpected(call)
    ensures ReplyErrorfSpec(engine, Some(call), name, format)
            == ReplyErrorSpec(engine, Some(call), Some(engine.formatError(name, format)))
  {
  }

  /** sd_bus_reply_method_errnof is the error reply with the error built
      from the errno and the formatted text, whatever that reply gives. */
  lemma ErrnofIsErrorReply(engine: Engine, call: Received, errno: int, format: string)
    requires ReplyGuard(Some(call), true, engine.currentPid) == 0 && !NoReplyExpected(call)
    ensures ReplyErrnofSpec(engine, Some(call), errno, format)
            == ReplyErrorSpec(engine, Some(call), Some(engine.errnoFormatError(errno, format)))
  {
  }

  /** At most one reply is sent per call, and it is a METHOD_RETURN or a
      METHOD_ERROR addressed to the caller in reply to the call's serial. */
  lemma AtMostOneReply(engine: Engine, call: Option<Received>, request: ReplyRequest)
    ensures |ReplySpec(engine, call, request).events| <= 1
    ensures ReplySpec(engine, call, request).events != [] ==>
              var out := ReplySpec(engine, call, request).events[0];
              call.Some? && out.Sent?
              && out.message.header.kind in {MethodReturn, MethodError}
              && out.message.header.replySerial == Some(call.value.serial)
              && out.message.header.destination == call.value.sender
              && (out.message.header.kind == MethodReturn <==> request.Return?)
  {
  }

  /** When the errno mapping yields a set error, sd_bus_reply_method_errno
      sends exactly that error on a call that expects a reply. */
  lemma ErrnoReplyCarriesMappedError(engine: Engine, call: Received, errno: int)
    requires ReplyGuard(Some(call), true, engine.currentPid) == 0 && !NoReplyExpected(call)
    requires IsSet(Some(engine.errnoError(errno)))
    requires engine.newMessage(ErrorHeader(call, engine.errnoError(errno))) >= 0
    ensures ReplyErrnoSpec(engine, Some(call), errno, None).events
            == [Sent(Wire(ErrorHeader(call, engine.errnoError(errno)), []))]
  {
  }
}
