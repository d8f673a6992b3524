/**
 The values the sd-bus convenience layer works on: error codes, connections,
 received messages, outgoing messages as they leave the builder, errors,
 credentials, and the collaborators outside the layer (`Engine`).
 */
module BusTypes {
  import opened Wrappers

  // Linux errno values; every entry point returns them negated.
  const EPERM: int := 1
  const ECHILD: int := 10
  const ENOMEM: int := 12
  const EINVAL: int := 22
  const ENOTCONN: int := 107

  /** The standard interface for property access and its two methods
      (D-Bus Specification, "Standard Interfaces", org.freedesktop.DBus.Properties). */
  const PROPERTIES_INTERFACE: string := "org.freedesktop.DBus.Properties"
  const GET_METHOD: string := "Get"
  const SET_METHOD: string := "Set"

  /** Header flag 0x1, NO_REPLY_EXPECTED (D-Bus Specification, "Message Format", header flags). */
  const NO_REPLY_EXPECTED: bv8 := 1

  /** SD_BUS_CREDS_PID: bit 0 of a credentials mask. */
  const CREDS_PID: bv64 := 1

  /** A bus connection: whether its state is one of the open states, and the
      process id captured when it was set up (compared with the current one
      to detect use after fork). */
  datatype Connection = Connection(isOpen: bool, originalPid: nat)

  datatype MessageType = Signal | MethodCall | MethodReturn | MethodError

  /** An sd_bus_error: a name and a message, each possibly NULL. */
  datatype BusError = BusError(name: Option<string>, message: Option<string>)

  const ERROR_NULL: BusError := BusError(None, None)

  /** sd_bus_error_is_set: the pointer is non-NULL and the name is present. */
  predicate IsSet(e: Option<BusError>) {
    e.Some? && e.value.name.Some?
  }

  /** One marshaled value, one constructor per wire type the layer passes through. */
  datatype Value =
    | Byte(b: bv8)
    | Boolean(truth: bool)
    | Int16(i16: int)
    | UInt16(u16: nat)
    | Int32(i32: int)
    | UInt32(u32: nat)
    | Int64(i64: int)
    | UInt64(u64: nat)
    | Str(text: string)
    | ObjectPath(path: string)
    | Signature(signature: string)
    | StrArray(strings: seq<string>)

  /** One step of building a message body: values appended against a
      signature, a container opened with its contents signature, or the
      innermost open container closed. */
  datatype Item =
    | Put(signature: string, values: seq<Value>)
    | Open(kind: char, contents: string)
    | Close

  /** An open (builder) or entered (reader) container; `contents` is None
      when entering without a type constraint. */
  datatype Container = Container(kind: char, contents: Option<string>)

  /** The header fields the layer sets on the messages it builds. */
  datatype Header = Header(
    kind: MessageType,
    destination: Option<string>,
    path: Option<string>,
    interface: Option<string>,
    member: Option<string>,
    replySerial: Option<nat>,
    error: Option<BusError>)

  /** A message as handed to the transport: its header and the body items in order. */
  datatype Wire = Wire(header: Header, body: seq<Item>)

  /** What the transport observes: a fire-and-forget send or a blocking call. */
  datatype Event = Sent(message: Wire) | Called(message: Wire)

  /** Credentials with the mask of the fields that are populated. */
  datatype Creds = Creds(mask: bv64)

  /** A received message, as the reply and credential operations see it. */
  datatype Received = Received(
    sealed: bool,
    kind: MessageType,
    flags: bv8,
    serial: nat,
    sender: Option<string>,
    creds: Option<Creds>,
    bus: Option<Connection>)

  /** The answer to a blocking call: the status and the error it reports. */
  datatype Answer = Answer(status: int, error: BusError)

  /** The result of reading one basic value, one string, or a string array from a reply. */
  datatype Readout = Readout(status: int, value: Value)
  datatype TextReadout = TextReadout(status: int, text: string)
  datatype StrvReadout = StrvReadout(status: int, strings: seq<string>)

  /** The result of a credential-store query. */
  datatype CredsAnswer = CredsAnswer(status: int, creds: Option<Creds>)

  /**
   The collaborators of the convenience layer, reduced to the deterministic
   results they give: name and signature validators, the id of the current
   process, the message builder, the transport, the reply reader, the error
   mappings and the credential store. Each status is negative on failure.
   */
  datatype Engine = Engine(
    currentPid: nat,
    interfaceNameIsValid: string -> bool,
    memberNameIsValid: string -> bool,
    signatureIsSingle: string -> bool,
    typeIsTrivial: char -> bool,
    newMessage: Header -> int,
    append: (string, seq<Value>) -> int,
    openContainer: (char, string) -> int,
    closeContainer: int,
    send: Wire -> int,
    call: Wire -> Answer,
    enterContainer: (Wire, char, Option<string>) -> int,
    readBasic: (Wire, char) -> Readout,
    readString: Wire -> TextReadout,
    readStrv: Wire -> StrvReadout,
    strdupSucceeds: bool,
    formatError: (Option<string>, string) -> BusError,
    errnoError: int -> BusError,
    errnoFormatError: (int, string) -> BusError,
    getOwner: (string, bv64) -> CredsAnswer,
    getPeerCreds: bv64 -> CredsAnswer,
    extendByPid: (Creds, bv64) -> CredsAnswer)

  /** isempty(): NULL or the empty string. */
  predicate IsEmpty(s: Option<string>) {
    s.None? || s.value == ""
  }

  /** strempty(): NULL read as the empty string. */
  function StrEmpty(s: Option<string>): (r: string)
    ensures IsEmpty(s) <==> r == ""
    ensures !IsEmpty(s) ==> r == s.value
  {
    if s.None? then "" else s.value
  }
}
