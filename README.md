# sd-bus convenience layer, modelled in Dafny

This project models `src/libsystemd-bus/bus-convenience.c`, the request/reply
convenience layer of sd-bus (systemd's D-Bus library). It covers:

- emitting a signal and making a blocking method call;
- replying to a received method call with a METHOD_RETURN, or with a
  METHOD_ERROR given as an error, a name and a format, an errno, or an errno
  and a format;
- reading and writing a property through `org.freedesktop.DBus.Properties`;
- finding the credentials of a message's sender.

Every entry point starts with a fixed sequence of argument and connection
checks. Each check maps to one negative errno. Then a message is built step
by step with an early return on the first failure, and at most one send or
one blocking call is made.

Layout:

- `bus_types.dfy`: the values. These are connections, received messages,
  outgoing messages as items (values appended, a container opened, a
  container closed), errors and credentials. It also holds `Engine`, the
  single record of everything outside the file: message constructors, the
  marshaler, send and call, the reply reader, name validators, error
  mappings, the credential store and the current process id.
- `validation.dfy`: the checks as pure functions (`assert_return` chains).
- `messages.dfy`: the imperative collaborators the builders drive.
  - `Builder`: a message under construction, with its body and its stack of
    open containers.
  - `Reply`: a received reply, with its entered containers and whether the
    layer has released it.
  - `Transport`: a ghost trace of sends and calls.
  - Also the pure meaning of a build (`Marshal`, `Build`) and of nesting
    (`Unclosed`, `Balanced`, `VariantCount`).
- `calls.dfy`, `replies.dfy`, `properties.dfy`: every C function has two
  parts.
  - A method that does what the C does, step by step.
  - A specification function giving the return code, the events the
    transport sees and the out-values.
  - Each method's `ensures` ties it to its specification function. Lemmas
    state the properties of the specification functions.
- `creds.dfy`: the choice made by `sd_bus_query_sender_creds`, which is pure
  branching. It is proved equal to an independent cheapest-first definition.

An error is "set" when the pointer to it is non-NULL and its name is
non-NULL (`BusTypes.IsSet`). This is how `sd_bus_error_is_set` is used at
src/libsystemd-bus/bus-convenience.c:136 and :191. The file that defines
`sd_bus_error_is_set` is not part of this model.

## Model

| member | source | states |
|---|---|---|
| BusTypes.IsSet | src/libsystemd-bus/bus-convenience.c:136 | definition: an error counts as set when the pointer is non-NULL and its name is non-NULL |
| BusTypes.IsEmpty | src/libsystemd-bus/bus-convenience.c:46 | definition of isempty(): NULL or the empty string |
| BusTypes.StrEmpty | src/libsystemd-bus/bus-convenience.c:245 | a NULL interface is sent as the empty string, any other as itself; the result is empty exactly when the input is NULL or empty |
| Validation.ConnectionGuard | src/libsystemd-bus/bus-convenience.c:39-40 | 0 exactly when the connection exists, is open and was set up by the current process; -ENOTCONN exactly when it is missing or not open; -ECHILD exactly when it is open but the process id changed |
| Validation.EntryGuard | src/libsystemd-bus/bus-convenience.c:237-243 | -EINVAL exactly when the bus is NULL or an argument check fails; 0 exactly when every check passes; otherwise the connection's code; no other code is possible |
| Validation.ReplyGuard | src/libsystemd-bus/bus-convenience.c:133-138 | the reply checks in source order: NULL call -EINVAL, unsealed -EPERM, not a METHOD_CALL or an unset error -EINVAL, then the connection checks; each code is characterised by an if-and-only-if |
| Validation.CredsGuard | src/libsystemd-bus/bus-convenience.c:417-420 | NULL call -EINVAL, unsealed -EPERM, then the connection checks; no message-type check, so any sealed message qualifies |
| Messages.Marshal | src/libsystemd-bus/bus-convenience.c:389-409 | appending items with early return gives a status <= 0, negative exactly when some item fails |
| Messages.MarshalStopsAtFirstFailure | src/libsystemd-bus/bus-convenience.c:389-409 | a failing build returns the status of the first failing step, and every earlier step succeeded |
| Messages.Build | src/libsystemd-bus/bus-convenience.c:42-53 | building fails exactly when creating the message or some append fails; a failed creation gives the constructor's own status, a failed append that of the first failing step; a built message has exactly the given header and items |
| Messages.WrapInVariant | src/libsystemd-bus/bus-convenience.c:397-409 | open 'v' with a signature, append values of it, close: a complete body stays complete and gains exactly one variant |
| Messages.Builder.Append | src/libsystemd-bus/bus-convenience.c:393-395 | returns the marshaler's status; the item is recorded only on success; nesting stays well formed |
| Messages.Builder.OpenContainer | src/libsystemd-bus/bus-convenience.c:397-399 | returns the marshaler's status; on success the container is recorded and pushed on the open stack |
| Messages.Builder.CloseContainer | src/libsystemd-bus/bus-convenience.c:407-409 | needs an open container; on success the innermost one is popped |
| Messages.NewMessage | src/libsystemd-bus/bus-convenience.c:42-44 | a fresh, empty builder with the given header exactly when the constructor's status is not negative |
| Messages.Reply.EnterContainer | src/libsystemd-bus/bus-convenience.c:249-253 | returns the reader's status; the container is entered only on success |
| Messages.Reply.ReadBasic | src/libsystemd-bus/bus-convenience.c:287-289 | status and value as the reader reports them for this reply |
| Messages.Reply.ReadString | src/libsystemd-bus/bus-convenience.c:323-325 | status and text as the reader reports them for this reply |
| Messages.Reply.ReadStrv | src/libsystemd-bus/bus-convenience.c:362-364 | status and string array as the reader reports them for this reply |
| Messages.Reply.Unref | src/libsystemd-bus/bus-convenience.c:251 | the layer's reference is dropped; nothing else about the reply changes |
| Messages.Transport.Send | src/libsystemd-bus/bus-convenience.c:56 | exactly one send of exactly this message is recorded |
| Messages.Transport.Call | src/libsystemd-bus/bus-convenience.c:90 | exactly one call is recorded; the caller's error is overwritten only on failure; a fresh reply for this request comes back exactly on success |
| Calls.ArgumentsBuild | src/libsystemd-bus/bus-convenience.c:42-54 | with a NULL or empty types string the marshaler is never consulted and the message has an empty body; otherwise a created message is followed by one append, whose failure status is returned |
| Calls.EmitSignalSpec | src/libsystemd-bus/bus-convenience.c:28-57 | a failed check returns its code with nothing sent; at most one send, of the signal with exactly the given arguments; something is sent exactly when the checks pass and the build succeeds; a failed build returns its own status; the code is then the send's |
| Calls.EmitSignal | src/libsystemd-bus/bus-convenience.c:28-57 | the step-by-step emit gives the code and trace of `EmitSignalSpec` |
| Calls.CallMethodSpec | src/libsystemd-bus/bus-convenience.c:59-91 | as for emit, with one call instead of a send; a failed build returns its own status; the caller's error changes only when the call fails; a reply comes back exactly when the code is not negative |
| Calls.CallMethod | src/libsystemd-bus/bus-convenience.c:59-91 | the step-by-step call gives the code, error, reply and trace of `CallMethodSpec`; a reply is fresh, unread and answers the recorded call |
| Replies.ReplyReturnSpec | src/libsystemd-bus/bus-convenience.c:93-124 | checks first; NO_REPLY_EXPECTED gives 0 and nothing sent; otherwise at most one METHOD_RETURN to the caller's sender in reply to its serial, carrying exactly the given arguments; a failed build returns its own status |
| Replies.ReplyMethodReturn | src/libsystemd-bus/bus-convenience.c:93-124 | the step-by-step reply gives the code and trace of `ReplyReturnSpec` |
| Replies.ReplyErrorSpec | src/libsystemd-bus/bus-convenience.c:126-148 | an unset error is refused with -EINVAL before the connection checks and the no-reply flag are looked at; otherwise as for return, with a METHOD_ERROR carrying the error and no body; a failed creation returns its own status and sends nothing |
| Replies.ReplyMethodError | src/libsystemd-bus/bus-convenience.c:126-148 | the step-by-step reply gives the code and trace of `ReplyErrorSpec` |
| Replies.NoReplyExpected | src/libsystemd-bus/bus-convenience.c:106 | definition: the NO_REPLY_EXPECTED bit (0x1) of the call's header flags is set |
| Replies.ReplyErrorfSpec | src/libsystemd-bus/bus-convenience.c:150-173 | checks first; NO_REPLY_EXPECTED gives 0 and nothing sent; otherwise at most one METHOD_ERROR carrying exactly the error formatted from name and text; it is sent exactly when that error is set and the message can be created; an unset formatted error gives -EINVAL; a failed creation of the METHOD_ERROR gives the constructor's status with nothing sent |
| Replies.ReplyMethodErrorf | src/libsystemd-bus/bus-convenience.c:150-173 | after the checks and the no-reply test, hands the error formatted from name and text to the error reply |
| Replies.ReplyErrnoSpec | src/libsystemd-bus/bus-convenience.c:175-197 | as for errorf, with the caller's error when it is set and otherwise the errno's mapped error; an unset mapped error gives -EINVAL; a failed creation gives the constructor's status |
| Replies.ReplyMethodErrno | src/libsystemd-bus/bus-convenience.c:175-197 | after the checks and the no-reply test, hands the caller's error if set, else the mapped errno, to the error reply |
| Replies.ReplyErrnofSpec | src/libsystemd-bus/bus-convenience.c:199-222 | as for errorf, with the error built from the errno and the formatted text, including the constructor's status on a failed creation |
| Replies.ReplyMethodErrnof | src/libsystemd-bus/bus-convenience.c:199-222 | after the checks and the no-reply test, hands the error formatted from errno and text to the error reply |
| Replies.RepliesCheckFirst | src/libsystemd-bus/bus-convenience.c:100-104 | in all five reply operations, a failed check gives a negative code and sends nothing; except for the error reply, the code is the check's |
| Replies.NoReplyExpectedSuppressesReplies | src/libsystemd-bus/bus-convenience.c:106-107 | a call flagged NO_REPLY_EXPECTED that passes the checks is answered by every reply operation with 0 and no message |
| Replies.UnsetErrorRefused | src/libsystemd-bus/bus-convenience.c:136 | on a sealed METHOD_CALL, an unset error gives -EINVAL and sends nothing, whatever the connection or the flags |
| Replies.ErrorfIsErrorReply | src/libsystemd-bus/bus-convenience.c:168-172 | once the checks pass and a reply is expected, the errorf reply is exactly the error reply with the formatted error |
| Replies.ErrnofIsErrorReply | src/libsystemd-bus/bus-convenience.c:217-221 | once the checks pass and a reply is expected, the errnof reply is exactly the error reply with the error built from the errno and the text |
| Replies.ErrnoErrorPrecedence | src/libsystemd-bus/bus-convenience.c:191-196 | the errno reply is the error reply with the caller's set error, else with the mapped errno |
| Replies.AtMostOneReply | src/libsystemd-bus/bus-convenience.c:93-222 | every reply operation sends at most one message; it is a METHOD_RETURN exactly for the return operation, otherwise a METHOD_ERROR; it is addressed to the call's sender in reply to the call's serial |
| Replies.ErrnoReplyCarriesMappedError | src/libsystemd-bus/bus-convenience.c:194-196 | without a caller error, the single message sent carries exactly the mapped errno error |
| Properties.NamesValid | src/libsystemd-bus/bus-convenience.c:238-239 | definition: the interface is NULL, empty or a valid interface name, and the member is a valid member name |
| Properties.GetCall | src/libsystemd-bus/bus-convenience.c:245 | the Get call succeeds exactly when the connection checks pass, the message is created, the "ss" append succeeds and the call succeeds; it is then exactly one Properties.Get with (interface or "", member), and the caller's error is untouched |
| Properties.GetPropertySpec | src/libsystemd-bus/bus-convenience.c:224-257 | a failed check returns its code with nothing called; after the checks, the caller's error and the events are the Get call's; a failed call returns its code, a failed enter returns its code, and when both succeed the code is 0 and the reply is handed back positioned in the variant of the requested type; the reply is handed back exactly when the code is 0 |
| Properties.GetProperty | src/libsystemd-bus/bus-convenience.c:224-257 | the step-by-step getter gives the result of `GetPropertySpec`; a reply exists exactly when the transport's call succeeded, and it answers that Get; a returned reply is that reply, positioned inside the variant and not released; otherwise it has been released |
| Properties.GetTrivialSpec | src/libsystemd-bus/bus-convenience.c:259-292 | as for the plain getter, with the variant entered with the one-character type; then a failed read returns its code, and a successful read gives 0 with the value read stored |
| Properties.GetPropertyTrivial | src/libsystemd-bus/bus-convenience.c:259-292 | the step-by-step getter gives the result of `GetTrivialSpec`; a reply exists exactly when the transport's call succeeded, and it is released on every path |
| Properties.GetStringSpec | src/libsystemd-bus/bus-convenience.c:294-333 | as the trivial getter with type "s"; after a successful read a failed copy gives -ENOMEM and nothing stored, a successful copy gives 0 with the text |
| Properties.GetPropertyString | src/libsystemd-bus/bus-convenience.c:294-333 | the step-by-step getter gives the result of `GetStringSpec`; a reply exists exactly when the transport's call succeeded, and it is released on every path |
| Properties.GetStrvSpec | src/libsystemd-bus/bus-convenience.c:335-367 | as for the plain getter, with the variant entered with no type constraint; then a failed read returns its code, and a successful read gives 0 with the string array |
| Properties.GetPropertyStrv | src/libsystemd-bus/bus-convenience.c:335-367 | the step-by-step getter gives the result of `GetStrvSpec`; a reply exists exactly when the transport's call succeeded, and it is released on every path |
| Properties.SetPropertySpec | src/libsystemd-bus/bus-convenience.c:369-412 | a failed check returns its code with nothing called; at most one Properties.Set whose body is (interface or "", member) and one variant holding the value; a call happens exactly when the checks and the build succeed; no reply is handed back |
| Properties.SetProperty | src/libsystemd-bus/bus-convenience.c:369-412 | the step-by-step setter gives the result of `SetPropertySpec`; a reply exists exactly when the transport's call succeeded, it answers the Set message, and it is dropped |
| Properties.BuildSetCall | src/libsystemd-bus/bus-convenience.c:389-409 | the five building steps run in order and stop at the first failure; they give the status and message of `Build` on the Set body |
| Properties.SetBodyStatus | src/libsystemd-bus/bus-convenience.c:393-409 | marshaling the Set body returns the status of the first failing step among names, open variant, value, close |
| Properties.SetPayloadWrapsOneVariant | src/libsystemd-bus/bus-convenience.c:393-409 | the Set body is complete, holds exactly one variant, and the variant is tagged with the value's own signature |
| Properties.SetPropertyStepOrder | src/libsystemd-bus/bus-convenience.c:389-411 | once the checks pass, the code is that of the first failing step among create, names, open, value, close, with nothing called; when all succeed, exactly one call is made |
| Properties.GettersCallGetOnce | src/libsystemd-bus/bus-convenience.c:245 | once the checks pass and the Get message builds, all four getters make exactly one Properties.Get with (interface or "", member) |
| Properties.Uint32PropertyScenario | src/libsystemd-bus/bus-convenience.c:259-292 | a peer answering variant<uint32>(42) makes the trivial getter return 0 and store 42, with the caller's error left unset |
| Properties.Uint32PositionedReplyScenario | src/libsystemd-bus/bus-convenience.c:224-257 | for the same peer the plain getter returns 0 with the reply positioned in the variant, and reading a uint32 from that reply gives 42 |
| Credentials.ChooseStrategy | src/libsystemd-bus/bus-convenience.c:424-441 | the attached creds exactly when they cover the mask; the pid extension exactly when they exist, do not cover it and carry the pid; otherwise an owner lookup of the sender when there is one, else a peer query |
| Credentials.QuerySenderCreds | src/libsystemd-bus/bus-convenience.c:414-442 | a failed check returns its code and runs nothing; otherwise exactly the chosen strategy runs and its status and creds are returned; the cached path returns 0 and the attached creds, which cover the mask |
| Credentials.FullQuery | src/libsystemd-bus/bus-convenience.c:433-438 | asking the bus about the sender is an owner lookup or a peer query, and it can serve any request |
| Credentials.CanServe | src/libsystemd-bus/bus-convenience.c:424-441 | reference definition: the attached creds serve a mask they cover; the pid extension needs attached creds carrying the pid; the owner lookup needs the sender's name; the peer query serves a message without a sender |
| Credentials.FirstServing | src/libsystemd-bus/bus-convenience.c:424-441 | reference definition: the first candidate that can serve the request; every earlier candidate cannot |
| Credentials.Ladder | src/libsystemd-bus/bus-convenience.c:424-441 | reference definition: cached, pid extension, asking the bus, in strictly increasing cost |
| Credentials.ChooseIsFirstServing | src/libsystemd-bus/bus-convenience.c:424-441 | the code's choice equals the first strategy, in order of cost, that can serve the request: cached, then pid extension, then asking the bus |
| Credentials.ChooseIsCheapest | src/libsystemd-bus/bus-convenience.c:424-441 | the chosen strategy can serve the request, and no strategy that could serve it is cheaper |
| Credentials.CoveredRequestsUseCache | src/libsystemd-bus/bus-convenience.c:425-428 | when the attached creds hold every requested bit, the query returns them with 0 and asks nothing |

## Left out

- Byte-level marshaling, signatures and container internals are not modelled. The marshaler reports a status per step (`Engine.append`, `openContainer`, `closeContainer`), and a message is the list of steps that succeeded.
- Varargs are not modelled. Arguments are a sequence of `Value`, and the value of `sd_bus_set_property` is a single `Value`.
- printf-style formatting and the errno-to-error mappings are not modelled. They are the engine functions `formatError`, `errnoError` and `errnoFormatError`, which return arbitrary errors.
- The validators `interface_name_is_valid`, `member_name_is_valid`, `signature_is_single` and `bus_type_is_trivial` live in other files, which are not part of this model. They are engine predicates.
- Blocking, timeouts and the wire protocol of `sd_bus_send` and `sd_bus_call` are out of scope. A send or call returns the engine's answer and is recorded in the transport's trace.
- `getpid()` is modelled by the value `Engine.currentPid`, compared with the connection's recorded process id.
- The credential store (`sd_bus_get_owner`, `sd_bus_get_peer_creds`, `bus_creds_extend_by_pid`) is out of this process. Only which one runs, and that its result is passed back unchanged, is modelled. That a query only ever adds bits to a mask is a property of that store and is not stated.
- `Credentials.QuerySenderCreds` takes `sd_bus_message_get_creds` as the creds field of the received message. It does not model any filtering of them by mask.
- Reference counting of locally built messages (`_cleanup_` on `m`) is not modelled. Only the layer's reference to a received reply is tracked, as `Reply.released`.
- Passing NULL for path, member or type is not modelled. Those are plain strings. A NULL destination, interface, types string and sender are modelled; a NULL interface of `sd_bus_emit_signal` is handed to the signal constructor, which decides.
- The `sd_bus_error *error` argument of `sd_bus_call_method`, the getters and `sd_bus_set_property` is a plain `BusError`. A NULL error pointer is not modelled for them. The error of the reply functions is an `Option` and its NULL case is modelled.
- `Calls.CallMethodSpec`: a NULL `reply` out pointer is not modelled. A reply always comes back on success. `sd_bus_set_property` passes NULL, and the model drops the reply at once.
- The out pointers of the getters (`reply`, `ptr`, `ret`) are modelled by flags whose NULL case gives -EINVAL. What is stored through them is the getter's value.
- Freeing of the transient errors (`_cleanup_bus_error_free_` at src/libsystemd-bus/bus-convenience.c:156, 180 and 205) is not modelled. Errors are values in the model.
- `Messages.Reply.EnterContainer`: a non-negative status is taken to mean that the container was entered. A reader that returns 0 without entering, because the next element is not such a container, is not distinguished; the getters only test for a negative status.
- `Messages.Reply.ReadBasic`: a non-negative status is taken to mean that a value was read and stored. A reader that returns 0 without storing anything, at the end of the data, is not distinguished.
- `Properties.GetTrivialSpec`: on a failed read, nothing is taken to be stored through the pointer. Partial writes by the reader are not modelled.
- The getters' duplicate checks are not stated separately: `sd_bus_call_method` repeats the connection checks that the getter already passed. The model runs them, and they always pass.
