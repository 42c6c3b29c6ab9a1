/** The sans-I/O Channel Access client engine: virtual circuits with their
    receive buffers, channels with their set-once circuit binding, the client
    that allocates channel ids and turns search responses into circuits, and
    the server's sid counter. */
module Caproto {
  import opened Wrappers
  import Framing
  import opened Commands
  import opened States

  /** The collaborators the engine consumes as data: the role-keyed command
      table (opcode to command kind), the datagram decoder, and the
      transition functions of the circuit and channel state machines. */
  datatype Protocol = Protocol(
    table: (Role, nat) -> Option<CommandKind>,
    readBytes: (seq<bv8>, Role) -> Result<Command, Error>,
    circuitMachine: Machine,
    channelMachine: Machine)

  /** What a circuit's next_command yields. */
  datatype Next = NeedsMoreData | Got(command: Command) | Failed(error: Error)

  /** The command the receive buffer `buf` holds, as framed and looked up in
      the command table for the sending role; no state machine is consulted.
      The command is built from the header and an empty payload. */
  function DecodeBuffer(p: Protocol, role: Role, buf: seq<bv8>): (d: Next)
    ensures d.NeedsMoreData? <==> Framing.Frame(buf).NeedsData?
    ensures d.Failed? ==>
      Framing.Frame(buf).Complete? &&
      p.table(role, Framing.Frame(buf).header.command).None? &&
      d.error == UnknownCommand(role, Framing.Frame(buf).header.command)
    ensures d.Got? ==>
      Framing.Frame(buf).Complete? &&
      p.table(role, Framing.Frame(buf).header.command) == Some(d.command.kind) &&
      d.command.header == Framing.Frame(buf).header &&
      d.command.payload == [] && d.command.address == None
  {
    match Framing.Frame(buf)
    case NeedsData => NeedsMoreData
    case Complete(_, _, header) =>
      match p.table(role, header.command)
      case None => Failed(UnknownCommand(role, header.command))
      case Some(kind) => Got(Command(kind, header, [], None))
  }

  /** Once the buffer holds a complete command, more bytes arriving do not
      change what next_command decodes. */
  lemma DecodeBufferStable(p: Protocol, role: Role, buf: seq<bv8>, more: seq<bv8>)
    requires !DecodeBuffer(p, role, buf).NeedsMoreData?
    ensures DecodeBuffer(p, role, buf + more) == DecodeBuffer(p, role, buf)
  {
    Framing.FrameStable(buf, more);
  }

  /** One connection to a peer at one priority. */
  class VirtualCircuit {
    const ourRole: Role := CLIENT
    const theirRole: Role := SERVER
    const address: Address
    const priority: int
    const protocol: Protocol
    /** One circuit automaton per role. */
    var state: RoleStates
    /** Received bytes, not yet consumed. */
    var data: seq<bv8>

    constructor (address: Address, priority: int, protocol: Protocol)
      ensures this.address == address && this.priority == priority
      ensures this.protocol == protocol
      ensures state == Initial(protocol.circuitMachine) && data == []
    {
      this.address := address;
      this.priority := priority;
      this.protocol := protocol;
      state := Initial(protocol.circuitMachine);
      data := [];
    }

    /** Validates an outgoing command against both automata. */
    method Send(command: Command) returns (r: Result<Command, Error>)
      modifies this`state
      ensures var fed := FeedBoth(protocol.circuitMachine, old(state), ourRole, theirRole, command.kind);
        state == fed.states &&
        r == if fed.rejectedBy == None then Success(command) else Failure(Violation(fed, command.kind))
    {
      var o := ProcessCommand(ourRole, command);
      if o.Fail? {
        return Failure(o.error);
      }
      return Success(command);
    }

    /** Buffers received bytes; nothing is parsed. */
    method Recv(bytes: seq<bv8>)
      modifies this`data
      ensures data == old(data) + bytes
    {
      data := data + bytes;
    }

    /** Feeds the command's kind to the automaton of both roles, whatever
        `role` is given. */
    method ProcessCommand(role: Role, command: Command) returns (o: Outcome<Error>)
      modifies this`state
      ensures var fed := FeedBoth(protocol.circuitMachine, old(state), ourRole, theirRole, command.kind);
        state == fed.states &&
        o == if fed.rejectedBy == None then Pass else Fail(Violation(fed, command.kind))
    {
      var fed := FeedBoth(protocol.circuitMachine, state, ourRole, theirRole, command.kind);
      state := fed.states;
      if fed.rejectedBy == None {
        o := Pass;
      } else {
        o := Fail(Violation(fed, command.kind));
      }
    }

    /** Frames the buffer; on a complete command, decodes it for the remote
        role and feeds it to both automata. The buffer is never consumed. */
    method NextCommand() returns (r: Next)
      modifies this`state
      ensures data == old(data)
      ensures var d := DecodeBuffer(protocol, theirRole, data);
        !d.Got? ==> r == d && state == old(state)
      ensures var d := DecodeBuffer(protocol, theirRole, data);
        d.Got? ==>
          var fed := FeedBoth(protocol.circuitMachine, old(state), ourRole, theirRole, d.command.kind);
          state == fed.states &&
          r == if fed.rejectedBy == None then d else Failed(Violation(fed, d.command.kind))
    {
      var d := DecodeBuffer(protocol, theirRole, data);
      if !d.Got? {
        return d;
      }
      var o := ProcessCommand(ourRole, d.command);
      if o.Fail? {
        return Failed(o.error);
      }
      return d;
    }
  }

  /** The request a read or subscribe builds, with the circuit it goes on. */
  datatype Request = Request(
    circuit: Option<VirtualCircuit>,
    kind: CommandKind,
    dataType: Option<nat>,
    dataCount: Option<nat>)

  /** An omitted argument falls back to the channel's native value. */
  function OrNative(requested: Option<nat>, native: Option<nat>): Option<nat>
  {
    if requested.None? then native else requested
  }

  /** One named process variable on the client side. */
  class Channel {
    const cid: nat
    const name: string
    const priority: int
    var circuit: Option<VirtualCircuit>
    /** One channel automaton per role. */
    var state: RoleStates
    var nativeDataType: Option<nat>
    var nativeDataCount: Option<nat>
    var sid: Option<nat>

    constructor (circuit: Option<VirtualCircuit>, cid: nat, name: string, priority: int, machine: Machine)
      ensures this.circuit == circuit && this.cid == cid && this.name == name && this.priority == priority
      ensures state == Initial(machine)
      ensures nativeDataType == None && nativeDataCount == None && sid == None
    {
      this.circuit := circuit;
      this.cid := cid;
      this.name := name;
      this.priority := priority;
      state := Initial(machine);
      nativeDataType := None;
      nativeDataCount := None;
      sid := None;
    }

    /** The set-once circuit setter: the first assignment is stored, any
        later one fails and keeps the first binding. */
    method SetCircuit(c: Option<VirtualCircuit>) returns (o: Outcome<Error>)
      modifies this`circuit
      ensures old(circuit) == None ==> o == Pass && circuit == c
      ensures old(circuit) != None ==> o == Fail(AlreadyBound) && circuit == old(circuit)
    {
      if circuit == None {
        circuit := c;
        o := Pass;
      } else {
        o := Fail(AlreadyBound);
      }
    }

    /** Records what the server reported when it created the channel. */
    method Create(nativeDataType: nat, nativeDataCount: nat, sid: nat)
      modifies this`nativeDataType, this`nativeDataCount, this`sid
      ensures this.nativeDataType == Some(nativeDataType)
      ensures this.nativeDataCount == Some(nativeDataCount)
      ensures this.sid == Some(sid)
    {
      this.nativeDataType := Some(nativeDataType);
      this.nativeDataCount := Some(nativeDataCount);
      this.sid := Some(sid);
    }

    method Read(dataType: Option<nat> := None, dataCount: Option<nat> := None) returns (req: Request)
      ensures req.circuit == circuit && req.kind == ReadRequest
      ensures dataType.Some? ==> req.dataType == dataType
      ensures dataType.None? ==> req.dataType == nativeDataType
      ensures dataCount.Some? ==> req.dataCount == dataCount
      ensures dataCount.None? ==> req.dataCount == nativeDataCount
    {
      req := Request(circuit, ReadRequest, OrNative(dataType, nativeDataType), OrNative(dataCount, nativeDataCount));
    }

    method Subscribe(dataType: Option<nat> := None, dataCount: Option<nat> := None) returns (req: Request)
      ensures req.circuit == circuit && req.kind == SubscribeRequest
      ensures dataType.Some? ==> req.dataType == dataType
      ensures dataType.None? ==> req.dataType == nativeDataType
      ensures dataCount.Some? ==> req.dataCount == dataCount
      ensures dataCount.None? ==> req.dataCount == nativeDataCount
    {
      req := Request(circuit, SubscribeRequest, OrNative(dataType, nativeDataType), OrNative(dataCount, nativeDataCount));
    }
  }

  /** The client-side orchestrator. */
  class Client {
    const ourRole: Role := CLIENT
    const theirRole: Role := SERVER
    const protocol: Protocol
    /** Known names and the address that answered a search for them. */
    var names: map<string, Address>
    /** At most one circuit per (address, priority). */
    var circuits: map<(Address, int), VirtualCircuit>
    var channels: map<nat, Channel>
    /** The next cid to hand out. */
    var cidCounter: nat
    /** Datagrams received and not yet processed, oldest first. */
    var inbox: seq<(seq<bv8>, Address)>

    /** A bound channel uses the circuit the table holds for its own key. */
    ghost predicate BoundToTable(chan: Channel)
      reads this, chan
    {
      chan.circuit.Some? ==>
        var key := (chan.circuit.value.address, chan.priority);
        key in circuits && circuits[key] == chan.circuit.value
    }

    ghost predicate Valid()
      reads this, channels.Values
    {
      && (forall cid | cid in channels :: channels[cid].cid == cid && cid < cidCounter)
      && (forall key | key in circuits :: circuits[key].address == key.0 && circuits[key].priority == key.1)
      && (forall cid | cid in channels :: BoundToTable(channels[cid]))
    }

    constructor (protocol: Protocol)
      ensures Valid()
      ensures this.protocol == protocol
      ensures names == map[] && circuits == map[] && channels == map[]
      ensures cidCounter == 0 && inbox == []
    {
      this.protocol := protocol;
      names := map[];
      circuits := map[];
      channels := map[];
      cidCounter := 0;
      inbox := [];
    }

    /** Allocates the next cid and registers a new, unbound channel under it. */
    method NewChannel(name: string, priority: int := 0) returns (channel: Channel)
      requires Valid()
      modifies this`channels, this`cidCounter
      ensures Valid()
      ensures fresh(channel)
      ensures channel.cid == old(cidCounter) && cidCounter == old(cidCounter) + 1
      ensures channel.cid !in old(channels) && channels == old(channels)[channel.cid := channel]
      ensures channel.name == name && channel.priority == priority
      ensures channel.circuit == None && channel.sid == None
      ensures channel.nativeDataType == None && channel.nativeDataCount == None
      ensures channel.state == Initial(protocol.channelMachine)
    {
      var cid := cidCounter;
      cidCounter := cidCounter + 1;
      channel := new Channel(None, cid, name, priority, protocol.channelMachine);
      channels := channels[cid := channel];
    }

    /** Every channel is as it was. */
    twostate predicate ChannelsUnchanged()
      reads this, channels.Values
    {
      && channels == old(channels)
      && forall c | c in old(channels).Values ::
        c.circuit == old(c.circuit) && c.state == old(c.state) && c.sid == old(c.sid) &&
        c.nativeDataType == old(c.nativeDataType) && c.nativeDataCount == old(c.nativeDataCount)
    }

    /** Every channel but `chan` is as it was, and of `chan` at most the
        automaton states and the circuit changed. */
    twostate predicate OnlyChanged(chan: Channel)
      reads this, chan, channels.Values
    {
      && channels == old(channels)
      && chan.sid == old(chan.sid)
      && chan.nativeDataType == old(chan.nativeDataType)
      && chan.nativeDataCount == old(chan.nativeDataCount)
      && forall c | c in old(channels).Values && c != chan ::
           c.circuit == old(c.circuit) && c.state == old(c.state) && c.sid == old(c.sid) &&
           c.nativeDataType == old(c.nativeDataType) && c.nativeDataCount == old(c.nativeDataCount)
    }

    /** A search response from `a` for `chan`: the name is cached, the circuit
        for (a, priority) is reused or created once (a created one is new, with
        an empty buffer, start-state automata and the client's protocol), and
        it is bound to `chan` unless `chan` was bound before. */
    twostate predicate Resolved(chan: Channel, a: Address, new o: Outcome<Error>)
      reads this, chan, circuits.Values
    {
      var key := (a, chan.priority);
      && names == old(names)[chan.name := a]
      && key in circuits
      && (key in old(circuits) ==> circuits == old(circuits))
      && (key !in old(circuits) ==>
            circuits == old(circuits)[key := circuits[key]] && fresh(circuits[key]) &&
            circuits[key].address == a && circuits[key].priority == chan.priority &&
            circuits[key].protocol == protocol && circuits[key].data == [] &&
            circuits[key].state == Initial(protocol.circuitMachine))
      && (old(chan.circuit) == None ==> o == Pass && chan.circuit == Some(circuits[key]))
      && (old(chan.circuit) != None ==> o == Fail(AlreadyBound) && chan.circuit == old(chan.circuit))
    }

    /** The effect of processing `command` with outcome `o`. Only search
        requests and responses do anything: they step the automata of the
        channel whose cid is the header's parameter 2, and a response also
        resolves the channel's circuit. */
    twostate predicate Processed(command: Command, new o: Outcome<Error>)
      reads this, channels.Values, circuits.Values
    {
      && channels == old(channels) && cidCounter == old(cidCounter)
      && if !(command.kind.SearchRequest? || command.kind.SearchResponse?) then
           o == Pass && names == old(names) && circuits == old(circuits) && ChannelsUnchanged()
         else if command.header.parameter2 !in channels then
           o == Fail(UnknownChannel(command.header.parameter2)) &&
           names == old(names) && circuits == old(circuits) && ChannelsUnchanged()
         else
           var chan := channels[command.header.parameter2];
           var fed := FeedBoth(protocol.channelMachine, old(chan.state), ourRole, theirRole, command.kind);
           && chan.state == fed.states
           && OnlyChanged(chan)
           && if fed.rejectedBy != None || command.kind.SearchRequest? || command.address == None then
                && o == (if fed.rejectedBy != None then Fail(Violation(fed, command.kind))
                         else if command.kind.SearchRequest? then Pass
                         else Fail(MissingAddress))
                && names == old(names) && circuits == old(circuits)
                && chan.circuit == old(chan.circuit)
              else
                Resolved(chan, command.address.value, o)
    }

    /** The dispatch every command goes through; `role` is not consulted. */
    method ProcessCommand(role: Role, command: Command) returns (o: Outcome<Error>)
      requires Valid()
      modifies this`names, this`circuits, channels.Values
      ensures Valid()
      ensures inbox == old(inbox)
      ensures Processed(command, o)
    {
      if !(command.kind.SearchRequest? || command.kind.SearchResponse?) {
        return Pass;
      }
      var cid := command.header.parameter2;
      if cid !in channels {
        return Fail(UnknownChannel(cid));
      }
      var chan := channels[cid];
      var fed := FeedBoth(protocol.channelMachine, chan.state, ourRole, theirRole, command.kind);
      chan.state := fed.states;
      if fed.rejectedBy != None {
        return Fail(Violation(fed, command.kind));
      }
      if command.kind.SearchRequest? {
        return Pass;
      }
      if command.address == None {
        return Fail(MissingAddress);
      }
      var a := command.address.value;
      names := names[chan.name := a];
      var key := (a, chan.priority);
      var circuit: VirtualCircuit;
      if key in circuits {
        circuit := circuits[key];
      } else {
        circuit := new VirtualCircuit(a, chan.priority, protocol);
        circuits := circuits[key := circuit];
      }
      o := chan.SetCircuit(Some(circuit));
    }

    /** Processes an outgoing datagram command and hands it back. */
    method SendBroadcast(command: Command) returns (r: Result<Command, Error>)
      requires Valid()
      modifies this`names, this`circuits, channels.Values
      ensures Valid()
      ensures inbox == old(inbox)
      ensures Processed(command, if r.Success? then Pass else Fail(r.error))
      ensures r.Success? ==> r.value == command
    {
      var o := ProcessCommand(ourRole, command);
      if o.Fail? {
        return Failure(o.error);
      }
      return Success(command);
    }

    /** Queues a received datagram without processing it. */
    method RecvBroadcast(bytes: seq<bv8>, address: Address)
      modifies this`inbox
      ensures inbox == old(inbox) + [(bytes, address)]
    {
      inbox := inbox + [(bytes, address)];
    }

    /** Takes the oldest datagram, decodes its one command, tags it with the
        origin address and processes it. */
    method NextCommand() returns (r: Result<Command, Error>)
      requires Valid()
      modifies this`names, this`circuits, this`inbox, channels.Values
      ensures Valid()
      ensures old(inbox) == [] ==>
        r == Failure(EmptyInbox) && inbox == [] &&
        names == old(names) && circuits == old(circuits) && ChannelsUnchanged()
      ensures old(inbox) != [] ==> inbox == old(inbox)[1..]
      ensures old(inbox) != [] && protocol.readBytes(old(inbox)[0].0, theirRole).Failure? ==>
        r == Failure(protocol.readBytes(old(inbox)[0].0, theirRole).error) &&
        names == old(names) && circuits == old(circuits) && ChannelsUnchanged()
      ensures old(inbox) != [] && protocol.readBytes(old(inbox)[0].0, theirRole).Success? ==>
        var command := protocol.readBytes(old(inbox)[0].0, theirRole).value.(address := Some(old(inbox)[0].1));
        Processed(command, if r.Success? then Pass else Fail(r.error)) &&
        (r.Success? ==> r.value == command)
    {
      if inbox == [] {
        return Failure(EmptyInbox);
      }
      var (bytes, address) := inbox[0];
      inbox := inbox[1..];
      var decoded := protocol.readBytes(bytes, theirRole);
      if decoded.Failure? {
        return Failure(decoded.error);
      }
      var command := decoded.value.(address := Some(address));
      var o := ProcessCommand(theirRole, command);
      if o.Fail? {
        return Failure(o.error);
      }
      return Success(command);
    }

    /** Two channels that resolved to the same (address, priority) share the
        identical circuit. */
    lemma SharedCircuit(c1: Channel, c2: Channel)
      requires Valid()
      requires c1 in channels.Values && c2 in channels.Values
      requires c1.circuit.Some? && c2.circuit.Some?
      requires c1.circuit.value.address == c2.circuit.value.address && c1.priority == c2.priority
      ensures c1.circuit == c2.circuit
    {
    }
  }

  /** The server-side orchestrator; only its sid counter is modelled. */
  class Server {
    /** The next sid to hand out. */
    var sidCounter: nat

    constructor ()
      ensures sidCounter == 0
    {
      sidCounter := 0;
    }

    /** Hands out the next sid; sids are 0, 1, 2, ... in call order. */
    method NewSid() returns (sid: nat)
      modifies this
      ensures sid == old(sidCounter) && sidCounter == sid + 1
    {
      sid := sidCounter;
      sidCounter := sidCounter + 1;
    }
  }
}
