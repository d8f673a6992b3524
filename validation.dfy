/**
 The checks every entry point makes before it builds a message, each mapped
 to one error code. They are pure: a failed check returns its code and the
 operation does nothing else.
 */
module Validation {
  import opened Wrappers
  import opened BusTypes

  /** BUS_IS_OPEN then bus_pid_changed, on a connection that may be missing. */
  function ConnectionGuard(bus: Option<Connection>, pid: nat): (r: int)
    ensures r == 0 <==> bus.Some? && bus.value.isOpen && bus.value.originalPid == pid
    ensures r == -ENOTCONN <==> bus.None? || !bus.value.isOpen
    ensures r == -ECHILD <==> bus.Some? && bus.value.isOpen && bus.value.originalPid != pid
  {
    if bus.None? || !bus.value.isOpen then -ENOTCONN
    else if bus.value.originalPid != pid then -ECHILD
    else 0
  }

  /** The head of every entry point that takes a connection: a missing
      handle, then the argument checks (all -EINVAL), then openness and the
      process-id check. */
  function EntryGuard(bus: Option<Connection>, argumentsValid: bool, pid: nat): (r: int)
    ensures r in {0, -EINVAL, -ENOTCONN, -ECHILD}
    ensures r == -EINVAL <==> bus.None? || !argumentsValid
    ensures r == 0 <==> bus.Some? && argumentsValid && bus.value.isOpen && bus.value.originalPid == pid
    ensures bus.Some? && argumentsValid ==> r == ConnectionGuard(bus, pid)
  {
    if bus.None? then -EINVAL
    else if !argumentsValid then -EINVAL
    else ConnectionGuard(bus, pid)
  }

  /** The head of every reply operation: the call must exist, be sealed and
      be a METHOD_CALL; `errorValid` is the extra check of
      sd_bus_reply_method_error, which comes before the connection checks. */
  function ReplyGuard(call: Option<Received>, errorValid: bool, pid: nat): (r: int)
    ensures r in {0, -EINVAL, -EPERM, -ENOTCONN, -ECHILD}
    ensures r == -EPERM <==> call.Some? && !call.value.sealed
    ensures r == -EINVAL <==>
              call.None? || (call.value.sealed && (call.value.kind != MethodCall || !errorValid))
    ensures r == 0 <==>
              call.Some? && call.value.sealed && call.value.kind == MethodCall && errorValid
              && ConnectionGuard(call.value.bus, pid) == 0
    ensures call.Some? && call.value.sealed && call.value.kind == MethodCall && errorValid ==>
              r == ConnectionGuard(call.value.bus, pid)
  {
    if call.None? then -EINVAL
    else if !call.value.sealed then -EPERM
    else if call.value.kind != MethodCall then -EINVAL
    else if !errorValid then -EINVAL
    else ConnectionGuard(call.value.bus, pid)
  }

  /** The head of sd_bus_query_sender_creds: like ReplyGuard but without the
      message-type check, so any sealed message qualifies. */
  function CredsGuard(call: Option<Received>, pid: nat): (r: int)
    ensures r in {0, -EINVAL, -EPERM, -ENOTCONN, -ECHILD}
    ensures r == -EINVAL <==> call.None?
    ensures r == -EPERM <==> call.Some? && !call.value.sealed
    ensures r == 0 <==> call.Some? && call.value.sealed && ConnectionGuard(call.value.bus, pid) == 0
    ensures call.Some? && call.value.sealed ==> r == ConnectionGuard(call.value.bus, pid)
  {
    if call.None? then -EINVAL
    else if !call.value.sealed then -EPERM
    else ConnectionGuard(call.value.bus, pid)
  }
}
