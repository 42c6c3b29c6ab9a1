/** The protocol state machines, kept opaque: a state is an identifier, and
    the legal transitions are a partial function supplied as configuration.
    One automaton instance is kept per role; every processed command is fed
    to the instance of both roles, the local role first. */
module States {
  import opened Wrappers
  import opened Commands

  type StateId = nat

  /** An automaton family: its start state and its (partial) transition
      function, undefined where a command kind is illegal in a state. */
  datatype Machine = Machine(
    start: StateId,
    step: (Role, StateId, CommandKind) -> Option<StateId>)

  /** One automaton instance per role. */
  datatype RoleStates = RoleStates(client: StateId, server: StateId)
  {
    function Get(role: Role): StateId
    {
      match role
      case CLIENT => client
      case SERVER => server
    }

    function Set(role: Role, s: StateId): (r: RoleStates)
      ensures r.Get(role) == s
      ensures forall other: Role :: other != role ==> r.Get(other) == Get(other)
    {
      match role
      case CLIENT => this.(client := s)
      case SERVER => this.(server := s)
    }
  }

  function Initial(m: Machine): (r: RoleStates)
    ensures r.Get(CLIENT) == m.start && r.Get(SERVER) == m.start
  {
    RoleStates(m.start, m.start)
  }

  /** Feeding a command to two automata: the resulting states, and the role
      whose automaton rejected the command, if any. */
  datatype Fed = Fed(states: RoleStates, rejectedBy: Option<Role>)

  /** Feed `kind` to the automaton of `ours`, then to that of `theirs`. A
      rejection stops the feeding; what was fed before it stays fed. */
  function FeedBoth(m: Machine, rs: RoleStates, ours: Role, theirs: Role, kind: CommandKind): (r: Fed)
    requires ours != theirs
    // accepted by both: each automaton took exactly one step on `kind`
    ensures r.rejectedBy == None <==>
      m.step(ours, rs.Get(ours), kind).Some? && m.step(theirs, rs.Get(theirs), kind).Some?
    ensures r.rejectedBy == None ==>
      r.states.Get(ours) == m.step(ours, rs.Get(ours), kind).value &&
      r.states.Get(theirs) == m.step(theirs, rs.Get(theirs), kind).value
    // rejected by the local role: nothing changed
    ensures r.rejectedBy == Some(ours) <==> m.step(ours, rs.Get(ours), kind).None?
    ensures r.rejectedBy == Some(ours) ==> r.states == rs
    // rejected by the remote role: the local step stands, the remote state is kept
    ensures r.rejectedBy == Some(theirs) ==>
      r.states.Get(ours) == m.step(ours, rs.Get(ours), kind).value &&
      r.states.Get(theirs) == rs.Get(theirs)
    ensures r.rejectedBy == None || r.rejectedBy == Some(ours) || r.rejectedBy == Some(theirs)
  {
    match m.step(ours, rs.Get(ours), kind)
    case None => Fed(rs, Some(ours))
    case Some(s1) =>
      var rs1 := rs.Set(ours, s1);
      match m.step(theirs, rs1.Get(theirs), kind)
      case None => Fed(rs1, Some(theirs))
      case Some(s2) => Fed(rs1.Set(theirs, s2), None)
  }

  /** The error a rejected feeding surfaces as. */
  function Violation(fed: Fed, kind: CommandKind): Error
    requires fed.rejectedBy.Some?
  {
    ProtocolViolation(fed.rejectedBy.value, kind)
  }
}
