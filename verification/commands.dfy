/** The vocabulary the engine shares with its command table: roles, command
    kinds, peer addresses, decoded commands and the errors the engine raises.
    The table itself (opcode to command class, and the payload codecs) is
    external configuration; see `Caproto.Protocol`. */
module Commands {
  import opened Wrappers
  import opened Framing

  /** Which side of the protocol sent or receives a command. */
  datatype Role = CLIENT | SERVER

  /** The class of a decoded command; this is what the state machines see. */
  datatype CommandKind =
    | VersionRequest
    | VersionResponse
    | SearchRequest
    | SearchResponse
    | CreateRequest
    | CreateResponse
    | ReadRequest
    | WriteRequest
    | SubscribeRequest
    | OtherCommand(opcode: nat)

  /** A (host, port) pair. */
  datatype Address = Address(host: string, port: nat)

  /** A decoded command. `address` is the origin of a command that arrived as
      a datagram; commands read from a circuit carry `None`. */
  datatype Command = Command(
    kind: CommandKind,
    header: Header,
    payload: seq<bv8>,
    address: Option<Address>)

  datatype Error =
    // the command table has no entry for this opcode in this role
    | UnknownCommand(role: Role, opcode: nat)
    // a state machine has no transition for this command kind
    | ProtocolViolation(role: Role, kind: CommandKind)
    // no channel is registered under this cid
    | UnknownChannel(cid: nat)
    // the channel's circuit was set before
    | AlreadyBound
    // a search response without an origin address
    | MissingAddress
    // next_command on an empty datagram inbox
    | EmptyInbox
    // the datagram decoder rejected the bytes; not raised by the engine
    // itself, it is there for implementations of `Protocol.readBytes`
    | Undecodable
}
