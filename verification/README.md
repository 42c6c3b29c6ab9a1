# caproto: a verified model of the sans-I/O Channel Access client engine

This project models the protocol engine in `caproto/caproto.py`. The engine is a
"bring-your-own-I/O" implementation of EPICS Channel Access. It does no socket or
timer work. Callers hand it received bytes and datagrams, and take commands back.
The model has five modules:

- `Wrappers` (wrappers.dfy): `Option`, `Result` and `Outcome`. The engine's
  exceptions become values of these types.
- `Framing` (framing.dfy): the message framer as a pure function of the receive
  buffer. `Frame(buf)` is `NeedsData` or `Complete(headerSize, totalSize, header)`.
  Headers follow the Channel Access wire layout, big-endian:
  - the base header is 16 bytes (command, payload size, data type, data count,
    parameter 1, parameter 2);
  - the extended header is 24 bytes. It adds a 32-bit payload size and a 32-bit
    element count. It is used when the base header has payload size 0xFFFF and
    data count 0.
- `Commands` (commands.dfy): roles, command kinds, addresses, decoded commands
  and the error taxonomy.
- `States` (states.dfy): the circuit and channel state machines, kept opaque.
  A state is an identifier, and the transitions are a partial function given as
  configuration. `FeedBoth` feeds one command to the automaton of both roles, the
  local role first.
- `Caproto` (caproto.dfy): the classes `VirtualCircuit`, `Channel`, `Client` and
  `Server`. Each has the source's fields, updated in place.
  - `Client.Valid()` is the client's invariant. Every registered cid is below the
    counter and names its own channel. Every circuit sits under its own
    (address, priority) key. Every bound channel uses the table's circuit for its
    key.
  - The tables and state machines the engine consumes are passed in as one
    `Protocol` value. These are the role-keyed command table, the datagram decoder
    (`read_bytes`) and the two families of transition functions.

Exceptions map to `Error` values, and the state changes made before the raise
are kept:

| source | model |
|---|---|
| `KeyError` from the command table | `UnknownCommand` |
| `KeyError` from `_channels` | `UnknownChannel` |
| the setter's `RuntimeError` | `AlreadyBound` |
| `popleft` on an empty deque | `EmptyInbox` |
| a search response without `address` | `MissingAddress` |
| a state machine with no transition | `ProtocolViolation` |

Three things a Channel Access engine is expected to do are not done by this
code. The model follows the code:

- `VirtualCircuit.next_command` never removes the framed bytes from the buffer.
  It also builds every command from an empty payload. `NextCommand` states that
  the buffer is unchanged, and the decoded command's payload is `[]`.
- `Channel.read` and `Channel.subscribe` do not check that the channel is
  connected. `Read` and `Subscribe` have no such precondition or failure.
- `VirtualCircuit._process_command` and `Client._process_command` ignore their
  `role` argument. Both feed the command to the local role's automaton, then to
  the remote role's.

## Model

| member | source | states |
|---|---|---|
| `Framing.ExtendHeaderIff` | caproto/caproto.py:20-22 | `ExtendHeader`, the test of `extend_header` as written, holds on the parsed base header exactly when bytes 2-3 are 0xFF 0xFF and bytes 6-7 are 0 0 |
| `Framing.ParseBase` | caproto/caproto.py:65-67 | the base header's payload size and data count are 16-bit fields, so they never exceed the 0xFFFF marker |
| `Framing.ParseExtended` | caproto/caproto.py:70-73 | the extended header keeps the command, data type and parameters of the base header and supersedes only payload size and count |
| `Framing.Frame` | caproto/caproto.py:64-81 | fewer than 16 bytes gives NEEDS_DATA. The extended size (24) is used iff the base header asks for it, and a short extended header gives NEEDS_DATA. A complete frame's header is the extended one iff extended. The total is header plus payload, never past the buffer end. Conversely, once header and payload are buffered, the frame is complete |
| `Framing.ZeroPayloadComplete` | caproto/caproto.py:76-81 | a base header with zero payload size is complete as soon as its 16 bytes are buffered, with total size 16 |
| `Framing.FrameStable` | caproto/caproto.py:64-83 | once the buffer frames a complete command, appending any bytes leaves the header and both sizes unchanged |
| `Framing.NeedsDataOnPrefix` | caproto/caproto.py:64-81 | if a buffer needs data, so does every prefix of it |
| `States.FeedBoth` | caproto/caproto.py:59-62 | a command is fed to the local role's automaton, then the remote role's. If both accept, each takes exactly one step. If the local role rejects, nothing changes. If the remote role rejects, the local step stands and the remote state is kept |
| `Caproto.DecodeBuffer` | caproto/caproto.py:64-83 | NEEDS_DATA iff the framer says so. An opcode missing from the table for the remote role is an UnknownCommand error. Otherwise the command's kind is the table entry for the header's opcode, and it carries that header, an empty payload and no address |
| `Caproto.DecodeBufferStable` | caproto/caproto.py:64-83 | once the buffer yields a decision other than NEEDS_DATA, more bytes do not change it |
| `Caproto.VirtualCircuit.constructor` | caproto/caproto.py:44-50 | a new circuit has its address and priority, both automata at the start state and an empty buffer |
| `Caproto.VirtualCircuit.Send` | caproto/caproto.py:52-54 | an outgoing command is fed to both automata and is returned unchanged unless a role rejects it |
| `Caproto.VirtualCircuit.Recv` | caproto/caproto.py:56-57 | the buffer becomes the old buffer followed by exactly the given bytes |
| `Caproto.VirtualCircuit.ProcessCommand` | caproto/caproto.py:59-62 | the new automaton states are those of feeding both roles, whatever role is passed |
| `Caproto.VirtualCircuit.NextCommand` | caproto/caproto.py:64-85 | the buffer is never changed. NEEDS_DATA and an unknown opcode leave the automata untouched. A decoded command is fed to both automata and returned, or the rejecting role is reported |
| `Caproto.Channel.constructor` | caproto/caproto.py:160-170 | a new channel has the given circuit, cid, name and priority, start-state automata, and no native type, count or sid |
| `Caproto.Channel.SetCircuit` | caproto/caproto.py:176-181 | the first assignment is stored. A later one fails with AlreadyBound and keeps the first binding |
| `Caproto.Channel.Create` | caproto/caproto.py:183-187 | the native data type, native count and sid are recorded |
| `Caproto.Channel.Read` | caproto/caproto.py:197-202 | a read request goes on the channel's circuit. An omitted type or count is replaced by the native one, and a given one is kept |
| `Caproto.Channel.Subscribe` | caproto/caproto.py:207-212 | a subscribe request goes on the channel's circuit. An omitted type or count is replaced by the native one, and a given one is kept |
| `Caproto.Client.constructor` | caproto/caproto.py:92-99 | a new client has empty name, circuit and channel tables, an empty inbox and cid counter 0 |
| `Caproto.Client.NewChannel` | caproto/caproto.py:102-113 | the cid is the counter's old value, and the counter moves up by one, so cids are 0, 1, 2, ... The cid was not registered before. The only table change is the fresh, unbound channel stored under that cid |
| `Caproto.Client.ProcessCommand` | caproto/caproto.py:133-155 | only search requests and responses act. An unknown cid fails with nothing changed. The channel's automata take both roles' steps. A response caches name to address and reuses the circuit under (address, priority), or creates and stores exactly one. A created circuit is new, with an empty buffer, start-state automata and the client's protocol. It then binds that circuit, or fails with AlreadyBound and keeps the old binding. No other channel changes |
| `Caproto.Client.SendBroadcast` | caproto/caproto.py:115-118 | an outgoing datagram command is processed as above and returned unchanged on success |
| `Caproto.Client.RecvBroadcast` | caproto/caproto.py:120-122 | the (bytes, address) pair is appended at the back of the inbox |
| `Caproto.Client.NextCommand` | caproto/caproto.py:124-131 | an empty inbox fails with nothing changed. Otherwise the front datagram is removed, so datagrams are taken in arrival order. Its decoded command is tagged with the origin address and processed as above. A decoder failure changes nothing else |
| `Caproto.Client.SharedCircuit` | caproto/caproto.py:148-155 | under the client invariant, two channels bound to circuits with the same address and priority are bound to the identical circuit object |
| `Caproto.Server.constructor` | caproto/caproto.py:27-28 | the sid counter starts at 0 |
| `Caproto.Server.NewSid` | caproto/caproto.py:30-31 | the sid is the counter's old value, and the counter moves up by one, so sids are strictly increasing from 0 |

## Left out

- The binary layouts of `MessageHeader` and `ExtendedMessageHeader` are defined
  outside `caproto/caproto.py`, and those files are not part of this model. The
  model uses the Channel Access protocol's layout (16 and 24 bytes, big-endian)
  in their place.
- The command table (`Commands`) and `read_bytes` are defined in files that are
  not part of this model. They are inputs of the `Protocol` value.
- `from_wire` is also defined in a file that is not part of this model, and it is
  not an input of `Protocol`. The model assumes it always succeeds. It is assumed
  to yield a command of the table's kind that carries the framed header and the
  empty payload (`DecodeBuffer`).
- Headers are modelled as value copies of the buffer's bytes. In the source,
  `from_buffer` returns ctypes views into `_data`. While such a view is alive,
  CPython refuses to resize the bytearray, so `recv` can fail with `BufferError`.
  `VirtualCircuit.Recv` does not model that failure and always appends.
- DBR payload encoding is not modelled. It does not matter as written, because
  commands are built from an empty payload.
- The transition tables of `CircuitState` and `ChannelState` are defined in files
  that are not part of this model. Each is an opaque partial transition function
  (`States.Machine`).
- `parse_command_response` is not modelled: its body is empty.
- `Server.version`, `Server.create_channel` and `Server.search` are not modelled.
  Their arguments are elided, and `create_channel` uses an undefined `sid`.
- `Channel.write` is not modelled: its request arguments are elided.
- `Channel.next_request` is not modelled. It refers to a `circuit` and a `cid`
  that are not defined in its scope.
- `Client.new_channel` builds a `SearchRequest` and discards it. The model has no
  outgoing message, so `CLIENT_VERSION` and `PROTOCOL_VERSION` do not appear.
- `Channel._cli` and `Channel._requests` are not modelled. The client passes the
  channel's name where the client should go, and `_cli` is read only by
  `next_request`. `_requests` is never used.
- Sockets, datagram transport, logging and concurrency are not modelled. The
  engine has none of them.
- Consumption of framed bytes is not modelled, because the code does not remove
  them. Decoding chunked streams into a sequence of commands is not modelled
  either.
