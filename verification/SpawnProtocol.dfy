/** Spawning sessions: the desktop commands that wait, the relay that answers them, and the
    hosts behind the connections, as steps over FIFO channels. */
module SpawnProtocol {
  import opened Common
  import opened HostServer

  type ConnId = string

  /** The transports to remote hosts, each with a relay and a host of its own, and the local agent. */
  datatype Transport = Remote(number: nat) | Local

  /** How a spawn command returned. */
  datatype SpawnResult = Spawned(pid: nat) | Refused(reason: string) | SendFailed | RelayClosed | TimedOut

  /** Where a spawn command is: its waiter is registered, its request is on the way though `send` has
      not returned, it waits, its time is up but its waiter not yet removed, or it has returned. */
  datatype Phase = Registered | Sending | Waiting | Expired | Returned(result: SpawnResult)

  /** A spawn command for a connection, the transport that it uses, and its one-shot channel: the slot
      is filled when the waiter fires. */
  datatype Client = Client(conn: ConnId, via: Transport, phase: Phase, slot: Option<SpawnReply>)

  /** The desktop state that commands and relays share; `routes` has the transport of each connection
      that is up. */
  datatype Desktop = Desktop(
    clients: map<SessionId, Client>,
    pendingAcks: set<SessionId>,
    sessionConnections: map<SessionId, ConnId>,
    routes: map<ConnId, Transport>)

  // ---- What the commands and the relay do to the desktop ----

  /** The transport of a connection, or the local agent for one that is not up. */
  function Resolve(d: Desktop, named: ConnId): Transport {
    if named in d.routes then d.routes[named] else Local
  }

  /** A connection gets a transport, or loses the one it has. */
  function Reroute(d: Desktop, conn: ConnId, via: Option<Transport>): Desktop {
    d.(routes := if via.Some? then d.routes[conn := via.value] else d.routes - {conn})
  }

  function Begin(d: Desktop, id: SessionId, conn: ConnId, via: Transport): Desktop {
    d.(clients := d.clients[id := Client(conn, via, Registered, None)], pendingAcks := d.pendingAcks + {id})
  }

  function SetPhase(d: Desktop, id: SessionId, phase: Phase): Desktop
    requires id in d.clients
  {
    d.(clients := d.clients[id := d.clients[id].(phase := phase)])
  }

  function DropWaiter(d: Desktop, id: SessionId): Desktop {
    d.(pendingAcks := d.pendingAcks - {id})
  }

  predicate Listening(phase: Phase) {
    phase.Registered? || phase.Sending? || phase.Waiting?
  }

  /** The waiter is there and its receiver is still listening. */
  predicate Fires(d: Desktop, id: SessionId) {
    id in d.pendingAcks && id in d.clients && Listening(d.clients[id].phase)
  }

  /** The relay resolves a waiter: it is removed and fired; firing is lost if its receiver is gone. */
  function Deliver(d: Desktop, id: SessionId, reply: SpawnReply): Desktop {
    if Fires(d, id) then DropWaiter(d, id).(clients := d.clients[id := d.clients[id].(slot := Some(reply))])
    else DropWaiter(d, id)
  }

  /** The command wakes up with the reply in its slot. */
  function Wake(d: Desktop, id: SessionId): Desktop
    requires id in d.clients && d.clients[id].slot.Some?
  {
    match d.clients[id].slot.value
    case Ack(pid) =>
      SetPhase(d, id, Returned(Spawned(pid))).(sessionConnections := d.sessionConnections[id := d.clients[id].conn])
    case Nack(reason) => SetPhase(d, id, Returned(Refused(reason)))
  }

  /** The shared state of the desktop process, updated in place by its tasks. */
  class AppState {
    var clients: map<SessionId, Client>
    var pendingAcks: set<SessionId>
    var sessionConnections: map<SessionId, ConnId>
    var connectionTransports: map<ConnId, Transport>

    constructor ()
      ensures DesktopState() == Desktop(map[], {}, map[], map[])
    {
      clients, pendingAcks, sessionConnections, connectionTransports := map[], {}, map[], map[];
    }

    function DesktopState(): Desktop
      reads this
    {
      Desktop(clients, pendingAcks, sessionConnections, connectionTransports)
    }

    /** A connection comes up, or comes back over a new transport. */
    method Connect(conn: ConnId, via: Transport)
      modifies this
      ensures DesktopState() == Reroute(old(DesktopState()), conn, Some(via))
    {
      connectionTransports := connectionTransports[conn := via];
    }

    method Disconnect(conn: ConnId)
      modifies this
      ensures DesktopState() == Reroute(old(DesktopState()), conn, None)
    {
      connectionTransports := connectionTransports - {conn};
    }

    /** The transport is looked up first; the waiter is registered before anything is sent. */
    method BeginSpawn(id: SessionId, conn: ConnId)
      requires id !in clients
      modifies this
      ensures DesktopState() == Begin(old(DesktopState()), id, conn, Resolve(old(DesktopState()), conn))
    {
      var via := if conn in connectionTransports then connectionTransports[conn] else Local;
      clients := clients[id := Client(conn, via, Registered, None)];
      pendingAcks := pendingAcks + {id};
    }

    /** The transport takes the request, while the command still waits for `send` to return. */
    method TakeRequest(id: SessionId)
      requires id in clients && clients[id].phase.Registered?
      modifies this
      ensures DesktopState() == SetPhase(old(DesktopState()), id, Sending)
    {
      clients := clients[id := clients[id].(phase := Sending)];
    }

    /** `send` returns; it may fail before or after the request is on its way. */
    method AfterSend(id: SessionId, ok: bool)
      requires id in clients && (clients[id].phase.Sending? || (clients[id].phase.Registered? && !ok))
      modifies this
      ensures DesktopState() == if ok then SetPhase(old(DesktopState()), id, Waiting)
                                else SetPhase(DropWaiter(old(DesktopState()), id), id, Returned(SendFailed))
    {
      if !ok {
        pendingAcks := pendingAcks - {id};
        clients := clients[id := clients[id].(phase := Returned(SendFailed))];
      } else {
        clients := clients[id := clients[id].(phase := Waiting)];
      }
    }

    /** The ack and nack arms of the demultiplexing relay. */
    method RelayDeliver(id: SessionId, reply: SpawnReply)
      modifies this
      ensures DesktopState() == Deliver(old(DesktopState()), id, reply)
    {
      if id in pendingAcks {
        if id in clients && Listening(clients[id].phase) {
          clients := clients[id := clients[id].(slot := Some(reply))];
        }
        pendingAcks := pendingAcks - {id};
      } else {
        assert pendingAcks - {id} == pendingAcks;
      }
    }

    method WakeUp(id: SessionId)
      requires id in clients && clients[id].phase.Waiting? && clients[id].slot.Some?
      modifies this
      ensures DesktopState() == Wake(old(DesktopState()), id)
    {
      var c := clients[id];
      match c.slot.value {
        case Ack(pid) =>
          sessionConnections := sessionConnections[id := c.conn];
          clients := clients[id := c.(phase := Returned(Spawned(pid)))];
        case Nack(reason) =>
          clients := clients[id := c.(phase := Returned(Refused(reason)))];
      }
    }

    method CleanUpAfterTimeout(id: SessionId)
      requires id in clients && clients[id].phase.Expired?
      modifies this
      ensures DesktopState() == SetPhase(DropWaiter(old(DesktopState()), id), id, Returned(TimedOut))
    {
      pendingAcks := pendingAcks - {id};
      clients := clients[id := clients[id].(phase := Returned(TimedOut))];
    }
  }

  // ---- The whole system ----

  datatype Request = SpawnSession(id: SessionId) | CloseSession(id: SessionId)

  datatype Response = SpawnResponse(id: SessionId, reply: SpawnReply) | Other

  /** A connection: its two channels, its host, whether its relay still runs, and for the
      record what its host ever answered and every entry its table ever had. */
  datatype Connection = Connection(
    requests: seq<Request>,
    responses: seq<Response>,
    host: Host,
    relayRuns: bool,
    answered: map<SessionId, SpawnReply>,
    everRegistered: map<SessionId, nat>)

  /** The system, and for the record every firing of a waiter. */
  datatype System = System(desktop: Desktop, conns: map<Transport, Connection>, fired: seq<(SessionId, SpawnReply)>)

  datatype Step =
    | ConnectionUp(conn: ConnId, number: nat)
    | ConnectionGone(conn: ConnId)
    | LocalUp
    | StartSpawn(id: SessionId, named: ConnId)
    | RequestGoesOut(id: SessionId)
    | SendReturns(id: SessionId, ok: bool)
    | HostStep(via: Transport, chance: SpawnChance)
    | HostSendsOther(via: Transport)
    | RelayStep(via: Transport)
    | RelayDies(via: Transport)
    | WakeSpawn(id: SessionId)
    | SenderDropped(id: SessionId)
    | TimeUp(id: SessionId)
    | CleanUp(id: SessionId)
    | CloseSpawned(id: SessionId, ok: bool)

  predicate InPhase(s: System, id: SessionId, phase: Phase) {
    id in s.desktop.clients && s.desktop.clients[id].phase == phase
  }

  /** Session ids and transports are fresh; everything else may happen at any time. A command that finds no
      transport at all returns before it has any effect. */
  predicate Enabled(s: System, step: Step) {
    match step
    case ConnectionUp(_, number) => Remote(number) !in s.conns
    case ConnectionGone(_) => true
    case LocalUp => Local !in s.conns
    case StartSpawn(id, named) => id !in s.desktop.clients && Resolve(s.desktop, named) in s.conns
    case RequestGoesOut(id) => InPhase(s, id, Registered) && s.desktop.clients[id].via in s.conns
    case SendReturns(id, ok) => InPhase(s, id, Sending) || (InPhase(s, id, Registered) && !ok)
    case HostStep(via, _) => via in s.conns && s.conns[via].requests != []
    case HostSendsOther(via) => via in s.conns
    case RelayStep(via) => via in s.conns && s.conns[via].relayRuns && s.conns[via].responses != []
    case RelayDies(via) => via in s.conns
    case WakeSpawn(id) => InPhase(s, id, Waiting) && s.desktop.clients[id].slot.Some?
    case SenderDropped(id) =>
      InPhase(s, id, Waiting) && s.desktop.clients[id].slot.None? && id !in s.desktop.pendingAcks
    case TimeUp(id) => InPhase(s, id, Waiting) && s.desktop.clients[id].slot.None?
    case CleanUp(id) => InPhase(s, id, Expired)
    case CloseSpawned(id, _) =>
      && id in s.desktop.sessionConnections && s.desktop.sessionConnections[id] in s.desktop.routes
      && s.desktop.routes[s.desktop.sessionConnections[id]] in s.conns
  }

  /** What is at both ends of a transport that has just come up. */
  const NEW_CONNECTION := Connection([], [], Host(map[], {}), true, map[], map[])

  function PutConn(s: System, via: Transport, c: Connection): System {
    s.(conns := s.conns[via := c])
  }

  /** The record of the table, as it stands in this state. */
  function Record(c: Connection): Connection {
    c.(everRegistered := c.everRegistered + c.host.sessions)
  }

  /** The host takes the oldest request and answers it. */
  function HostTakes(c: Connection, chance: SpawnChance): Connection
    requires c.requests != []
  {
    var rest := c.(requests := c.requests[1..]);
    match c.requests[0]
    case SpawnSession(id) =>
      var reply := SpawnAnswer(c.host, id, chance);
      Record(rest.(host := AfterSpawn(c.host, id, chance),
                   responses := c.responses + [SpawnResponse(id, reply)],
                   answered := c.answered[id := reply]))
    case CloseSession(id) =>
      Record(rest.(host := AfterClose(c.host, id), responses := c.responses + [Other]))
  }

  function Apply(s: System, step: Step): System
    requires Enabled(s, step)
  {
    match step
    case ConnectionUp(conn, number) =>
      PutConn(s, Remote(number), NEW_CONNECTION).(desktop := Reroute(s.desktop, conn, Some(Remote(number))))
    case ConnectionGone(conn) => s.(desktop := Reroute(s.desktop, conn, None))
    case LocalUp => PutConn(s, Local, NEW_CONNECTION)
    case StartSpawn(id, named) => s.(desktop := Begin(s.desktop, id, named, Resolve(s.desktop, named)))
    case RequestGoesOut(id) =>
      var via := s.desktop.clients[id].via;
      var c := s.conns[via];
      PutConn(s, via, c.(requests := c.requests + [SpawnSession(id)])).(desktop := SetPhase(s.desktop, id, Sending))
    case SendReturns(id, ok) =>
      s.(desktop := if ok then SetPhase(s.desktop, id, Waiting)
                    else SetPhase(DropWaiter(s.desktop, id), id, Returned(SendFailed)))
    case HostStep(via, chance) => PutConn(s, via, HostTakes(s.conns[via], chance))
    case HostSendsOther(via) => PutConn(s, via, s.conns[via].(responses := s.conns[via].responses + [Other]))
    case RelayStep(via) =>
      var c := s.conns[via];
      var popped := PutConn(s, via, c.(responses := c.responses[1..]));
      (match c.responses[0]
       case SpawnResponse(id, reply) =>
         popped.(desktop := Deliver(s.desktop, id, reply),
                 fired := if Fires(s.desktop, id) then s.fired + [(id, reply)] else s.fired)
       case Other => popped)
    case RelayDies(via) => PutConn(s, via, s.conns[via].(relayRuns := false))
    case WakeSpawn(id) => s.(desktop := Wake(s.desktop, id))
    case SenderDropped(id) => s.(desktop := SetPhase(DropWaiter(s.desktop, id), id, Returned(RelayClosed)))
    case TimeUp(id) => s.(desktop := SetPhase(s.desktop, id, Expired))
    case CleanUp(id) => s.(desktop := SetPhase(DropWaiter(s.desktop, id), id, Returned(TimedOut)))
    case CloseSpawned(id, ok) =>
      if !ok then s
      else
        var via := s.desktop.routes[s.desktop.sessionConnections[id]];
        var c := s.conns[via];
        PutConn(s, via, c.(requests := c.requests + [CloseSession(id)]))
        .(desktop := s.desktop.(sessionConnections := s.desktop.sessionConnections - {id}))
  }

  /** At the start some connections may be up, but nothing has been spawned. */
  ghost predicate Initial(s: System) {
    && s.desktop == Desktop(map[], {}, map[], s.desktop.routes) && s.fired == []
    && (forall conn :: conn in s.desktop.routes ==> s.desktop.routes[conn] in s.conns)
    && (forall conn :: conn in s.conns ==> s.conns[conn] == NEW_CONNECTION)
  }

  // ---- The invariant ----

  /** What is known of one spawn command. */
  ghost predicate ClientInv(s: System, id: SessionId)
    requires id in s.desktop.clients
  {
    var c := s.desktop.clients[id];
    && c.via in s.conns
    && (c.phase.Registered? ==> c.slot.None? && id in s.desktop.pendingAcks && id !in s.conns[c.via].answered)
    && ((c.phase.Sending? || c.phase.Waiting?) && c.slot.None? ==> id in s.desktop.pendingAcks)
    && (c.phase.Expired? ==> c.slot.None?)
    && (c.phase.Returned? ==> id !in s.desktop.pendingAcks)
    && (c.slot.Some? ==>
          id !in s.desktop.pendingAcks &&
          id in s.conns[c.via].answered && s.conns[c.via].answered[id] == c.slot.value)
    && (c.phase.Returned? && c.phase.result.Spawned? ==> c.slot == Some(Ack(c.phase.result.pid)))
  }

  ghost predicate Owned(d: Desktop, via: Transport, id: SessionId) {
    id in d.clients && d.clients[id].via == via
  }

  ghost predicate QueueInv(d: Desktop, via: Transport, c: Connection) {
    && (forall i :: 0 <= i < |c.requests| && c.requests[i].SpawnSession? ==>
          Owned(d, via, c.requests[i].id) && !d.clients[c.requests[i].id].phase.Registered? &&
          c.requests[i].id !in c.answered)
    && (forall i, j :: 0 <= i < j < |c.requests| && c.requests[i].SpawnSession? && c.requests[j].SpawnSession? ==>
          c.requests[i].id != c.requests[j].id)
  }

  ghost predicate AnswersInv(d: Desktop, via: Transport, c: Connection) {
    && (forall i :: 0 <= i < |c.responses| && c.responses[i].SpawnResponse? ==>
          c.responses[i].id in c.answered && c.answered[c.responses[i].id] == c.responses[i].reply)
    && (forall id :: id in c.answered ==> Owned(d, via, id) && !d.clients[id].phase.Registered?)
  }

  predicate AckRecorded(reply: SpawnReply, id: SessionId, record: map<SessionId, nat>) {
    reply.Ack? ==> id in record && record[id] == reply.pid
  }

  /** What the host's table holds is on record, and so is every entry that it acknowledged. */
  ghost predicate TableInv(c: Connection) {
    && |c.host.sessions| <= MAX_SESSIONS
    && (forall id :: id in c.answered ==> AckRecorded(c.answered[id], id, c.everRegistered))
    && (forall id :: id in c.host.sessions ==> id in c.everRegistered && c.everRegistered[id] == c.host.sessions[id])
  }

  /** What is known of one connection: its channels only carry its own clients' ids, every
      spawn request is open, unanswered and unique, and every answer is on record. */
  ghost predicate ConnInv(d: Desktop, via: Transport, c: Connection) {
    QueueInv(d, via, c) && AnswersInv(d, via, c) && TableInv(c)
  }

  /** A firing gave a command the answer that its own connection has on record. */
  ghost predicate FiringRecorded(d: Desktop, conns: map<Transport, Connection>, id: SessionId, reply: SpawnReply) {
    && id in d.clients && id !in d.pendingAcks
    && d.clients[id].via in conns
    && id in conns[d.clients[id].via].answered
    && conns[d.clients[id].via].answered[id] == reply
  }

  ghost predicate FiredInv(s: System) {
    && (forall i, j :: 0 <= i < j < |s.fired| ==> s.fired[i].0 != s.fired[j].0)
    && (forall i :: 0 <= i < |s.fired| ==> FiringRecorded(s.desktop, s.conns, s.fired[i].0, s.fired[i].1))
  }

  /** A session is mapped to a connection only by a command that returned with its pid. */
  ghost predicate MappingInv(d: Desktop) {
    forall id :: id in d.sessionConnections ==>
      id in d.clients && d.clients[id].conn == d.sessionConnections[id] &&
      d.clients[id].phase.Returned? && d.clients[id].phase.result.Spawned?
  }

  ghost predicate ClientsInv(s: System) {
    forall id :: id in s.desktop.clients ==> ClientInv(s, id)
  }

  ghost predicate ConnsInv(s: System) {
    forall via :: via in s.conns ==> ConnInv(s.desktop, via, s.conns[via])
  }

  ghost predicate RoutesInv(s: System) {
    forall conn :: conn in s.desktop.routes ==> s.desktop.routes[conn] in s.conns
  }

  ghost predicate WaitersInv(d: Desktop) {
    forall id :: id in d.pendingAcks ==> id in d.clients
  }

  ghost predicate Inv(s: System) {
    ClientsInv(s) && ConnsInv(s) && RoutesInv(s) && WaitersInv(s.desktop) && MappingInv(s.desktop) && FiredInv(s)
  }

  lemma InitialInv(s: System)
    requires Initial(s)
    ensures Inv(s)
  {
  }

  /** No command disappears, changes its connection or becomes unsent again. */
  ghost predicate Grows(d: Desktop, e: Desktop) {
    forall id :: id in d.clients ==>
      id in e.clients && e.clients[id].conn == d.clients[id].conn && e.clients[id].via == d.clients[id].via &&
      (e.clients[id].phase.Registered? ==> d.clients[id].phase.Registered?)
  }

  lemma ConnInvGrows(d: Desktop, e: Desktop, via: Transport, c: Connection)
    requires ConnInv(d, via, c) && Grows(d, e)
    ensures ConnInv(e, via, c)
  {
  }

  /** The two desktops agree on everything but command `id`. */
  ghost predicate SameExcept(d: Desktop, e: Desktop, id: SessionId) {
    && e.routes == d.routes
    && (forall i :: i in e.clients && i != id ==> i in d.clients && e.clients[i] == d.clients[i])
    && (forall i :: i in e.pendingAcks && i != id ==> i in d.pendingAcks)
    && (forall i :: i in d.pendingAcks && i != id ==> i in e.pendingAcks)
  }

  lemma ClientsKeep(s: System, t: System, id: SessionId)
    requires ClientsInv(s) && t.conns == s.conns && SameExcept(s.desktop, t.desktop, id)
    requires id in t.desktop.clients ==> ClientInv(t, id)
    ensures ClientsInv(t)
  {
    forall i | i in t.desktop.clients ensures ClientInv(t, i) {
      if i != id {
        assert ClientInv(s, i);
      }
    }
  }

  lemma ConnsKeep(s: System, t: System)
    requires ConnsInv(s) && t.conns == s.conns && Grows(s.desktop, t.desktop)
    ensures ConnsInv(t)
  {
    forall via | via in t.conns ensures ConnInv(t.desktop, via, t.conns[via]) {
      ConnInvGrows(s.desktop, t.desktop, via, s.conns[via]);
    }
  }

  /** A firing stays on record while no waiter of an earlier command is registered anew. */
  lemma FiringsKeep(s: System, t: System)
    requires FiredInv(s) && t.fired == s.fired && Grows(s.desktop, t.desktop)
    requires forall via :: via in s.conns ==> via in t.conns && t.conns[via].answered == s.conns[via].answered
    requires forall id :: id in t.desktop.pendingAcks ==> id in s.desktop.pendingAcks || id !in s.desktop.clients
    ensures FiredInv(t)
  {
    forall i | 0 <= i < |t.fired| ensures FiringRecorded(t.desktop, t.conns, t.fired[i].0, t.fired[i].1) {
      assert FiringRecorded(s.desktop, s.conns, s.fired[i].0, s.fired[i].1);
    }
  }

  /** A step of command `id` alone. */
  lemma CommandStepKeepsInv(s: System, t: System, id: SessionId)
    requires Inv(s) && t.conns == s.conns && t.fired == s.fired
    requires Grows(s.desktop, t.desktop) && SameExcept(s.desktop, t.desktop, id)
    requires id in t.desktop.clients && ClientInv(t, id)
    requires id in t.desktop.pendingAcks ==> id in s.desktop.pendingAcks || id !in s.desktop.clients
    requires MappingInv(t.desktop)
    ensures Inv(t)
  {
    ClientsKeep(s, t, id);
    ConnsKeep(s, t);
    FiringsKeep(s, t);
  }

  lemma ConnOf(s: System, via: Transport)
    requires Inv(s) && via in s.conns
    ensures ConnInv(s.desktop, via, s.conns[via])
  {
  }

  lemma BeginDesktop(d: Desktop, id: SessionId, conn: ConnId, via: Transport)
    requires id !in d.clients && MappingInv(d)
    ensures var e := Begin(d, id, conn, via); Grows(d, e) && SameExcept(d, e, id) && MappingInv(e)
  {
  }

  lemma UnknownIsUnanswered(d: Desktop, via: Transport, c: Connection, id: SessionId)
    requires ConnInv(d, via, c) && id !in d.clients
    ensures id !in c.answered
  {
  }

  lemma StartKeepsInv(s: System, id: SessionId, named: ConnId)
    requires Inv(s) && Enabled(s, StartSpawn(id, named))
    ensures Inv(Apply(s, StartSpawn(id, named)))
  {
    var via := Resolve(s.desktop, named);
    ConnOf(s, via);
    UnknownIsUnanswered(s.desktop, via, s.conns[via], id);
    BeginDesktop(s.desktop, id, named, via);
    CommandStepKeepsInv(s, Apply(s, StartSpawn(id, named)), id);
  }

  ghost function PhaseStep(s: System, id: SessionId, phase: Phase, dropped: bool): System
    requires id in s.desktop.clients
  {
    s.(desktop := SetPhase(if dropped then DropWaiter(s.desktop, id) else s.desktop, id, phase))
  }

  lemma SetPhaseDesktop(d: Desktop, id: SessionId, phase: Phase, dropped: bool)
    requires id in d.clients && !phase.Registered? && id !in d.sessionConnections && MappingInv(d)
    ensures var e := SetPhase(if dropped then DropWaiter(d, id) else d, id, phase);
            Grows(d, e) && SameExcept(d, e, id) && MappingInv(e) && (id in e.pendingAcks ==> id in d.pendingAcks)
  {
  }

  /** A step that only moves a command that is not mapped to a new phase. */
  lemma PhaseStepKeepsInv(s: System, id: SessionId, phase: Phase, dropped: bool)
    requires Inv(s) && id in s.desktop.clients && !phase.Registered?
    requires id !in s.desktop.sessionConnections
    requires ClientInv(PhaseStep(s, id, phase, dropped), id)
    ensures Inv(PhaseStep(s, id, phase, dropped))
  {
    SetPhaseDesktop(s.desktop, id, phase, dropped);
    CommandStepKeepsInv(s, PhaseStep(s, id, phase, dropped), id);
  }

  lemma ClientOf(s: System, id: SessionId)
    requires Inv(s) && id in s.desktop.clients
    ensures ClientInv(s, id) && MappingInv(s.desktop) && FiredInv(s)
  {
  }

  lemma SendReturnKeepsInv(s: System, id: SessionId, ok: bool)
    requires Inv(s) && Enabled(s, SendReturns(id, ok))
    ensures Inv(Apply(s, SendReturns(id, ok)))
  {
    ClientOf(s, id);
    if ok {
      PhaseStepKeepsInv(s, id, Waiting, false);
    } else {
      PhaseStepKeepsInv(s, id, Returned(SendFailed), true);
    }
  }

  lemma RequestKeepsConnInv(d: Desktop, e: Desktop, via: Transport, c: Connection, id: SessionId)
    requires ConnInv(d, via, c) && Grows(d, e)
    requires Owned(d, via, id) && d.clients[id].phase.Registered? && id in e.clients && !e.clients[id].phase.Registered?
    ensures ConnInv(e, via, c.(requests := c.requests + [SpawnSession(id)]))
  {
    ConnInvGrows(d, e, via, c);
  }

  ghost predicate AnswersExtend(was: Connection, now: Connection) {
    forall id :: id in was.answered ==> id in now.answered && now.answered[id] == was.answered[id]
  }

  /** Later answers of a connection leave a command alone whose request is already out. */
  lemma ClientKeepsConn(s: System, via: Transport, c: Connection, id: SessionId)
    requires via in s.conns && id in s.desktop.clients && ClientInv(s, id) && AnswersInv(s.desktop, via, c)
    requires AnswersExtend(s.conns[via], c)
    ensures ClientInv(PutConn(s, via, c), id)
  {
  }

  lemma FiringsKeepConn(s: System, via: Transport, c: Connection)
    requires via in s.conns && FiredInv(s) && AnswersExtend(s.conns[via], c)
    ensures FiredInv(PutConn(s, via, c))
  {
    var t := PutConn(s, via, c);
    forall i | 0 <= i < |s.fired| ensures FiringRecorded(t.desktop, t.conns, s.fired[i].0, s.fired[i].1) {
      assert FiringRecorded(s.desktop, s.conns, s.fired[i].0, s.fired[i].1);
    }
  }

  /** A step that changes one connection and keeps its record of answers, or extends it. */
  lemma ConnStepKeepsInv(s: System, via: Transport, c: Connection)
    requires Inv(s) && via in s.conns && ConnInv(s.desktop, via, c) && AnswersExtend(s.conns[via], c)
    ensures Inv(PutConn(s, via, c))
  {
    var t := PutConn(s, via, c);
    forall i | i in t.desktop.clients ensures ClientInv(t, i) {
      ClientKeepsConn(s, via, c, i);
    }
    FiringsKeepConn(s, via, c);
  }

  lemma RequestKeepsInv(s: System, id: SessionId)
    requires Inv(s) && Enabled(s, RequestGoesOut(id))
    ensures Inv(Apply(s, RequestGoesOut(id)))
  {
    ClientOf(s, id);
    var via := s.desktop.clients[id].via;
    var mid, c := PhaseStep(s, id, Sending, false), s.conns[via];
    ConnOf(s, via);
    PhaseStepKeepsInv(s, id, Sending, false);
    SetPhaseDesktop(s.desktop, id, Sending, false);
    RequestKeepsConnInv(s.desktop, mid.desktop, via, c, id);
    ConnStepKeepsInv(mid, via, c.(requests := c.requests + [SpawnSession(id)]));
  }

  /** What was on record stays there when the table gets entries for sessions that it did not have. */
  lemma AcksStayRecorded(c: Connection, table: map<SessionId, nat>)
    requires TableInv(c)
    requires forall i :: i in table && i in c.answered ==> i in c.host.sessions && table[i] == c.host.sessions[i]
    ensures forall i :: i in c.answered ==> AckRecorded(c.answered[i], i, c.everRegistered + table)
  {
    forall i | i in c.answered ensures AckRecorded(c.answered[i], i, c.everRegistered + table) {
      assert AckRecorded(c.answered[i], i, c.everRegistered);
    }
  }

  /** A request that was not answered before adds at most its own entry. */
  lemma SpawnKeepsTable(c: Connection, id: SessionId, chance: SpawnChance)
    requires TableInv(c) && id !in c.answered
    ensures var host, reply := AfterSpawn(c.host, id, chance), SpawnAnswer(c.host, id, chance);
            TableInv(Record(c.(host := host, answered := c.answered[id := reply])))
  {
    CapIsKept(c.host, id, chance);
    var host, reply := AfterSpawn(c.host, id, chance), SpawnAnswer(c.host, id, chance);
    AcksStayRecorded(c, host.sessions);
    assert AckRecorded(reply, id, c.everRegistered + host.sessions);
  }

  lemma CloseKeepsTable(c: Connection, id: SessionId)
    requires TableInv(c)
    ensures TableInv(Record(c.(host := AfterClose(c.host, id))))
  {
    CapIsKept(c.host, id, SpawnChance(false, false, None));
    var record := c.everRegistered + AfterClose(c.host, id).sessions;
    forall i | i in c.answered ensures AckRecorded(c.answered[i], i, record) {
      assert AckRecorded(c.answered[i], i, c.everRegistered);
    }
  }

  lemma HostTakesKeepsTable(c: Connection, chance: SpawnChance)
    requires TableInv(c) && c.requests != [] && (c.requests[0].SpawnSession? ==> c.requests[0].id !in c.answered)
    ensures TableInv(HostTakes(c, chance))
  {
    match c.requests[0]
    case SpawnSession(id) => SpawnKeepsTable(c, id, chance);
    case CloseSession(id) => CloseKeepsTable(c, id);
  }

  lemma HostTakesKeepsQueues(d: Desktop, via: Transport, c: Connection, chance: SpawnChance)
    requires QueueInv(d, via, c) && AnswersInv(d, via, c) && c.requests != []
    ensures QueueInv(d, via, HostTakes(c, chance)) && AnswersInv(d, via, HostTakes(c, chance))
  {
    var c' := HostTakes(c, chance);
    assert forall i :: 0 <= i < |c'.requests| ==> c'.requests[i] == c.requests[i + 1];
  }

  lemma HostTakesKeepsConnInv(d: Desktop, via: Transport, c: Connection, chance: SpawnChance)
    requires ConnInv(d, via, c) && c.requests != []
    ensures ConnInv(d, via, HostTakes(c, chance))
  {
    HostTakesKeepsTable(c, chance);
    HostTakesKeepsQueues(d, via, c, chance);
  }

  lemma HostKeepsInv(s: System, via: Transport, chance: SpawnChance)
    requires Inv(s) && Enabled(s, HostStep(via, chance))
    ensures Inv(Apply(s, HostStep(via, chance)))
  {
    var c := s.conns[via];
    var c' := HostTakes(c, chance);
    assert ConnInv(s.desktop, via, c);
    HostTakesKeepsConnInv(s.desktop, via, c, chance);
    assert c.requests[0].SpawnSession? ==> c.requests[0].id !in c.answered;
    ConnStepKeepsInv(s, via, c');
  }

  lemma AnswerIsOwned(d: Desktop, via: Transport, c: Connection, id: SessionId)
    requires ConnInv(d, via, c) && id in c.answered
    ensures Owned(d, via, id)
  {
  }

  lemma DeliverKeepsClient(s: System, via: Transport, id: SessionId, reply: SpawnReply)
    requires id in s.desktop.clients && ClientInv(s, id) && s.desktop.clients[id].via == via
    requires via in s.conns && id in s.conns[via].answered && s.conns[via].answered[id] == reply
    ensures ClientInv(s.(desktop := Deliver(s.desktop, id, reply)), id)
  {
  }

  lemma DeliverDesktop(d: Desktop, id: SessionId, reply: SpawnReply)
    requires MappingInv(d) && id in d.clients
    ensures var e := Deliver(d, id, reply);
            Grows(d, e) && SameExcept(d, e, id) && MappingInv(e) && (id in e.pendingAcks ==> id in d.pendingAcks)
  {
  }

  /** Removing and filling a waiter whose answer is on record. */
  lemma ResolveKeepsInv(s: System, via: Transport, id: SessionId, reply: SpawnReply)
    requires Inv(s) && via in s.conns && Owned(s.desktop, via, id)
    requires id in s.conns[via].answered && s.conns[via].answered[id] == reply
    ensures Inv(s.(desktop := Deliver(s.desktop, id, reply)))
  {
    ClientOf(s, id);
    DeliverKeepsClient(s, via, id, reply);
    DeliverDesktop(s.desktop, id, reply);
    CommandStepKeepsInv(s, s.(desktop := Deliver(s.desktop, id, reply)), id);
  }

  /** A waiter that fires has not fired before. */
  lemma FireOnce(s: System, via: Transport, id: SessionId, reply: SpawnReply)
    requires FiredInv(s) && via in s.conns && Owned(s.desktop, via, id) && Fires(s.desktop, id)
    requires id in s.conns[via].answered && s.conns[via].answered[id] == reply
    ensures FiredInv(s.(desktop := Deliver(s.desktop, id, reply), fired := s.fired + [(id, reply)]))
  {
    var d := Deliver(s.desktop, id, reply);
    assert FiringRecorded(d, s.conns, id, reply);
    forall i | 0 <= i < |s.fired|
      ensures s.fired[i].0 != id && FiringRecorded(d, s.conns, s.fired[i].0, s.fired[i].1)
    {
      assert FiringRecorded(s.desktop, s.conns, s.fired[i].0, s.fired[i].1);
    }
  }

  lemma ClientsKeepFired(s: System, fired: seq<(SessionId, SpawnReply)>)
    requires forall id :: id in s.desktop.clients ==> ClientInv(s, id)
    ensures forall id :: id in s.desktop.clients ==> ClientInv(s.(fired := fired), id)
  {
    forall id | id in s.desktop.clients ensures ClientInv(s.(fired := fired), id) {
      assert ClientInv(s, id);
    }
  }

  lemma FiredKeepsInv(s: System, fired: seq<(SessionId, SpawnReply)>)
    requires Inv(s) && FiredInv(s.(fired := fired))
    ensures Inv(s.(fired := fired))
  {
    ClientsKeepFired(s, fired);
  }

  lemma DeliverKeepsInv(s: System, via: Transport, id: SessionId, reply: SpawnReply)
    requires Inv(s) && via in s.conns
    requires id in s.conns[via].answered && s.conns[via].answered[id] == reply
    ensures Inv(s.(desktop := Deliver(s.desktop, id, reply),
                   fired := if Fires(s.desktop, id) then s.fired + [(id, reply)] else s.fired))
  {
    var t := s.(desktop := Deliver(s.desktop, id, reply));
    ConnOf(s, via);
    AnswerIsOwned(s.desktop, via, s.conns[via], id);
    ResolveKeepsInv(s, via, id, reply);
    ClientOf(s, id);
    if Fires(s.desktop, id) {
      FireOnce(s, via, id, reply);
      FiredKeepsInv(t, s.fired + [(id, reply)]);
    }
  }

  lemma RelayKeepsInv(s: System, via: Transport)
    requires Inv(s) && Enabled(s, RelayStep(via))
    ensures Inv(Apply(s, RelayStep(via)))
  {
    var c := s.conns[via];
    var popped := PutConn(s, via, c.(responses := c.responses[1..]));
    assert ConnInv(s.desktop, via, c);
    ConnStepKeepsInv(s, via, c.(responses := c.responses[1..]));
    if c.responses[0].SpawnResponse? {
      DeliverKeepsInv(popped, via, c.responses[0].id, c.responses[0].reply);
    }
  }

  lemma WakeKeepsClient(s: System, id: SessionId)
    requires id in s.desktop.clients && ClientInv(s, id) && s.desktop.clients[id].slot.Some?
    ensures ClientInv(s.(desktop := Wake(s.desktop, id)), id)
  {
  }

  lemma WakeDesktop(d: Desktop, id: SessionId)
    requires MappingInv(d) && id in d.clients && d.clients[id].slot.Some?
    requires d.clients[id].phase.Waiting?
    ensures var e := Wake(d, id);
            Grows(d, e) && SameExcept(d, e, id) && MappingInv(e) && (id in e.pendingAcks ==> id in d.pendingAcks)
  {
  }

  lemma WakeKeepsInv(s: System, id: SessionId)
    requires Inv(s) && Enabled(s, WakeSpawn(id))
    ensures Inv(Apply(s, WakeSpawn(id)))
  {
    assert ClientInv(s, id);
    WakeKeepsClient(s, id);
    WakeDesktop(s.desktop, id);
    CommandStepKeepsInv(s, s.(desktop := Wake(s.desktop, id)), id);
  }

  lemma CloseRequestKeepsConnInv(d: Desktop, via: Transport, c: Connection, id: SessionId)
    requires ConnInv(d, via, c)
    ensures ConnInv(d, via, c.(requests := c.requests + [CloseSession(id)]))
  {
  }

  lemma UnmapKeepsInv(s: System, id: SessionId)
    requires Inv(s) && id in s.desktop.sessionConnections
    ensures Inv(s.(desktop := s.desktop.(sessionConnections := s.desktop.sessionConnections - {id})))
  {
    var t := s.(desktop := s.desktop.(sessionConnections := s.desktop.sessionConnections - {id}));
    assert ClientInv(s, id);
    assert ClientInv(t, id);
    CommandStepKeepsInv(s, t, id);
  }

  lemma CloseKeepsInv(s: System, id: SessionId, ok: bool)
    requires Inv(s) && Enabled(s, CloseSpawned(id, ok))
    ensures Inv(Apply(s, CloseSpawned(id, ok)))
  {
    if ok {
      var conn := s.desktop.routes[s.desktop.sessionConnections[id]];
      var c := s.conns[conn];
      ConnOf(s, conn);
      CloseRequestKeepsConnInv(s.desktop, conn, c, id);
      ConnStepKeepsInv(s, conn, c.(requests := c.requests + [CloseSession(id)]));
      UnmapKeepsInv(PutConn(s, conn, c.(requests := c.requests + [CloseSession(id)])), id);
    }
  }

  lemma WaiterIsHeld(s: System, id: SessionId)
    requires Inv(s) && id in s.desktop.clients
    ensures s.desktop.clients[id].phase.Waiting? && s.desktop.clients[id].slot.None? ==> id in s.desktop.pendingAcks
  {
    assert ClientInv(s, id);
  }

  lemma DroppedMeans(s: System, id: SessionId)
    ensures Enabled(s, SenderDropped(id)) ==>
              && id in s.desktop.clients && s.desktop.clients[id].phase.Waiting?
              && s.desktop.clients[id].slot.None? && id !in s.desktop.pendingAcks
  {
  }

  /** The "relay closed before ack" return of the source is never taken: the waiter's sender
      stays in the shared map until it is fired or the waiter removes it. */
  lemma SenderIsNeverDropped(s: System, id: SessionId)
    requires Inv(s)
    ensures !Enabled(s, SenderDropped(id))
  {
    if id in s.desktop.clients {
      WaiterIsHeld(s, id);
    }
    DroppedMeans(s, id);
  }

  lemma ClientsIgnore(s: System, t: System)
    requires ClientsInv(s) && t.desktop.clients == s.desktop.clients && t.desktop.pendingAcks == s.desktop.pendingAcks
    requires forall via :: via in s.conns ==> via in t.conns && t.conns[via] == s.conns[via]
    ensures ClientsInv(t)
  {
    forall id | id in t.desktop.clients ensures ClientInv(t, id) {
      assert ClientInv(s, id);
    }
  }

  lemma NewConnectionInv(d: Desktop, via: Transport)
    ensures ConnInv(d, via, NEW_CONNECTION)
  {
  }

  lemma ConnsUp(s: System, via: Transport)
    requires ConnsInv(s) && via !in s.conns
    ensures ConnsInv(PutConn(s, via, NEW_CONNECTION))
  {
    NewConnectionInv(s.desktop, via);
  }

  /** A new transport has nothing to do with the commands of the others. */
  lemma UpKeepsInv(s: System, via: Transport)
    requires Inv(s) && via !in s.conns
    ensures Inv(PutConn(s, via, NEW_CONNECTION))
  {
    var t := PutConn(s, via, NEW_CONNECTION);
    ClientsIgnore(s, t);
    ConnsUp(s, via);
    FiringsKeep(s, t);
  }

  /** What transport a connection has is of no concern to commands that are under way. */
  lemma RerouteKeepsInv(s: System, conn: ConnId, via: Option<Transport>)
    requires Inv(s) && (via.Some? ==> via.value in s.conns)
    ensures Inv(s.(desktop := Reroute(s.desktop, conn, via)))
  {
    var t := s.(desktop := Reroute(s.desktop, conn, via));
    ClientsIgnore(s, t);
    ConnsKeep(s, t);
    FiringsKeep(s, t);
  }

  lemma ConnectKeepsInv(s: System, conn: ConnId, number: nat)
    requires Inv(s) && Enabled(s, ConnectionUp(conn, number))
    ensures Inv(Apply(s, ConnectionUp(conn, number)))
  {
    UpKeepsInv(s, Remote(number));
    RerouteKeepsInv(PutConn(s, Remote(number), NEW_CONNECTION), conn, Some(Remote(number)));
  }

  /** Other messages and the end of a relay. */
  lemma IdleConnKeepsInv(s: System, via: Transport, c: Connection)
    requires Inv(s) && via in s.conns
    requires c == s.conns[via].(responses := s.conns[via].responses + [Other]) || c == s.conns[via].(relayRuns := false)
    ensures Inv(PutConn(s, via, c))
  {
    ConnOf(s, via);
    ConnStepKeepsInv(s, via, c);
  }

  lemma TimeoutKeepsInv(s: System, id: SessionId)
    requires Inv(s)
    ensures Enabled(s, TimeUp(id)) ==> Inv(Apply(s, TimeUp(id)))
    ensures Enabled(s, CleanUp(id)) ==> Inv(Apply(s, CleanUp(id)))
  {
    if Enabled(s, TimeUp(id)) {
      ClientOf(s, id);
      PhaseStepKeepsInv(s, id, Expired, false);
    }
    if Enabled(s, CleanUp(id)) {
      ClientOf(s, id);
      PhaseStepKeepsInv(s, id, Returned(TimedOut), true);
    }
  }

  lemma StepKeepsInv(s: System, step: Step)
    requires Inv(s) && Enabled(s, step)
    ensures Inv(Apply(s, step))
  {
    match step
    case ConnectionUp(conn, number) => ConnectKeepsInv(s, conn, number);
    case ConnectionGone(conn) => RerouteKeepsInv(s, conn, None);
    case LocalUp => UpKeepsInv(s, Local);
    case StartSpawn(id, named) => StartKeepsInv(s, id, named);
    case RequestGoesOut(id) => RequestKeepsInv(s, id);
    case SendReturns(id, ok) => SendReturnKeepsInv(s, id, ok);
    case HostStep(via, chance) => HostKeepsInv(s, via, chance);
    case HostSendsOther(via) => IdleConnKeepsInv(s, via, s.conns[via].(responses := s.conns[via].responses + [Other]));
    case RelayStep(via) => RelayKeepsInv(s, via);
    case RelayDies(via) => IdleConnKeepsInv(s, via, s.conns[via].(relayRuns := false));
    case WakeSpawn(id) => WakeKeepsInv(s, id);
    case SenderDropped(id) => SenderIsNeverDropped(s, id);
    case TimeUp(id) => TimeoutKeepsInv(s, id);
    case CleanUp(id) => TimeoutKeepsInv(s, id);
    case CloseSpawned(id, ok) => CloseKeepsInv(s, id, ok);
  }

  // ---- Runs ----

  predicate CanRun(s: System, steps: seq<Step>)
    decreases |steps|
  {
    steps == [] || (Enabled(s, steps[0]) && CanRun(Apply(s, steps[0]), steps[1..]))
  }

  function Run(s: System, steps: seq<Step>): System
    requires CanRun(s, steps)
    decreases |steps|
  {
    if steps == [] then s else Run(Apply(s, steps[0]), steps[1..])
  }

  lemma {:induction false} RunKeepsInv(s: System, steps: seq<Step>)
    requires Inv(s) && CanRun(s, steps)
    ensures Inv(Run(s, steps))
    decreases |steps|
  {
    if steps != [] {
      StepKeepsInv(s, steps[0]);
      RunKeepsInv(Apply(s, steps[0]), steps[1..]);
    }
  }

  // ---- The transport of a mapped session ----

  predicate Routed(s: System, conn: ConnId, via: Transport) {
    conn in s.desktop.routes && s.desktop.routes[conn] == via
  }

  /** The steps that change what transport a connection has. */
  predicate Reroutes(step: Step, conn: ConnId) {
    (step.ConnectionUp? || step.ConnectionGone?) && step.conn == conn
  }

  /** No step from `k` on changes the transport of the connection. */
  predicate RouteStays(steps: seq<Step>, k: nat, conn: ConnId) {
    forall j :: k <= j < |steps| ==> !Reroutes(steps[j], conn)
  }

  lemma RouteStaysAfter(steps: seq<Step>, k: nat, conn: ConnId)
    requires k <= |steps|
    ensures RouteStays(steps, k, conn) <==> RouteStays(steps[k..], 0, conn)
  {
    assert forall j :: k <= j < |steps| ==> steps[j] == steps[k..][j - k];
    assert forall j :: 0 <= j < |steps[k..]| ==> steps[k..][j] == steps[j + k];
  }

  /** A transport that a connection has lost it never gets back. */
  lemma StepKeepsRoute(s: System, step: Step, conn: ConnId, via: Transport)
    requires Enabled(s, step) && via in s.conns
    ensures var t := Apply(s, step);
            via in t.conns && (Routed(t, conn, via) <==> Routed(s, conn, via) && !Reroutes(step, conn))
  {
  }

  lemma {:induction false} RunKeepsRoute(s: System, steps: seq<Step>, conn: ConnId, via: Transport)
    requires CanRun(s, steps) && via in s.conns
    ensures Routed(Run(s, steps), conn, via)
            <==> Routed(s, conn, via) && RouteStays(steps, 0, conn)
    decreases |steps|
  {
    if steps != [] {
      StepKeepsRoute(s, steps[0], conn, via);
      RunKeepsRoute(Apply(s, steps[0]), steps[1..], conn, via);
      RouteStaysAfter(steps, 1, conn);
    }
  }

  /** A command keeps its connection and its transport. */
  lemma StepKeepsCommand(s: System, step: Step, id: SessionId)
    requires Enabled(s, step) && id in s.desktop.clients
    ensures var d, e := s.desktop, Apply(s, step).desktop;
            id in e.clients && e.clients[id].conn == d.clients[id].conn && e.clients[id].via == d.clients[id].via
  {
  }

  lemma {:induction false} RunKeepsCommand(s: System, steps: seq<Step>, id: SessionId)
    requires CanRun(s, steps) && id in s.desktop.clients
    ensures var d, e := s.desktop, Run(s, steps).desktop;
            id in e.clients && e.clients[id].conn == d.clients[id].conn && e.clients[id].via == d.clients[id].via
    decreases |steps|
  {
    if steps != [] {
      StepKeepsCommand(s, steps[0], id);
      RunKeepsCommand(Apply(s, steps[0]), steps[1..], id);
    }
  }

  lemma OnlyStartAdds(s: System, step: Step, id: SessionId)
    requires Enabled(s, step) && id !in s.desktop.clients
    ensures id in Apply(s, step).desktop.clients ==> step.StartSpawn? && step.id == id
  {
  }

  /** Where a run is cut, its second part goes on from where the first one ends. */
  lemma {:induction false} RunSplits(s: System, steps: seq<Step>, k: nat)
    requires k <= |steps| && CanRun(s, steps)
    ensures CanRun(s, steps[..k]) && CanRun(Run(s, steps[..k]), steps[k..])
    ensures Run(s, steps) == Run(Run(s, steps[..k]), steps[k..])
    decreases k
  {
    if k > 0 {
      var next := Apply(s, steps[0]);
      RunSplits(next, steps[1..], k - 1);
      assert steps[..k][1..] == steps[1..][..k - 1] && steps[1..][k - 1..] == steps[k..];
    }
  }

  /** Every command was started by some step. */
  lemma {:induction false} WasStarted(s: System, steps: seq<Step>, id: SessionId) returns (k: nat)
    requires CanRun(s, steps) && id !in s.desktop.clients && id in Run(s, steps).desktop.clients
    ensures k < |steps| && steps[k].StartSpawn? && steps[k].id == id
    decreases |steps|
  {
    if id in Apply(s, steps[0]).desktop.clients {
      OnlyStartAdds(s, steps[0], id);
      k := 0;
    } else {
      var j := WasStarted(Apply(s, steps[0]), steps[1..], id);
      k := j + 1;
    }
  }

  /** After its start a command is reached through its connection exactly when that connection had a
      transport then and neither lost nor replaced it since. */
  lemma OwnRouteSince(before: System, id: SessionId, named: ConnId, after: seq<Step>)
    requires Enabled(before, StartSpawn(id, named)) && CanRun(Apply(before, StartSpawn(id, named)), after)
    ensures var s := Run(Apply(before, StartSpawn(id, named)), after);
            && id in s.desktop.clients && s.desktop.clients[id].conn == named
            && (Routed(s, named, s.desktop.clients[id].via)
                <==> named in before.desktop.routes && RouteStays(after, 0, named))
  {
    var started := Apply(before, StartSpawn(id, named));
    RunKeepsCommand(started, after, id);
    RunKeepsRoute(started, after, named, started.desktop.clients[id].via);
  }

  /** A run is its first steps, one step, and the rest. */
  lemma RunThrough(s: System, steps: seq<Step>, k: nat)
    requires k < |steps| && CanRun(s, steps)
    ensures CanRun(s, steps[..k]) && Enabled(Run(s, steps[..k]), steps[k])
    ensures CanRun(Apply(Run(s, steps[..k]), steps[k]), steps[k + 1..])
    ensures Run(s, steps) == Run(Apply(Run(s, steps[..k]), steps[k]), steps[k + 1..])
  {
    RunSplits(s, steps, k);
    assert steps[k..][0] == steps[k] && steps[k..][1..] == steps[k + 1..];
  }

  lemma StartedOwnRoute(start: System, steps: seq<Step>, k: nat, id: SessionId, named: ConnId)
    requires CanRun(start, steps) && k < |steps| && steps[k] == StartSpawn(id, named)
    ensures CanRun(start, steps[..k])
    ensures var s := Run(start, steps);
            && id in s.desktop.clients && s.desktop.clients[id].conn == named
            && (Routed(s, named, s.desktop.clients[id].via)
                <==> named in Run(start, steps[..k]).desktop.routes && RouteStays(steps, k + 1, named))
  {
    RunThrough(start, steps, k);
    OwnRouteSince(Run(start, steps[..k]), id, named, steps[k + 1..]);
    RouteStaysAfter(steps, k + 1, named);
  }

  /** In every run, the connection that a session is mapped to has the session's own transport exactly when
      it had one when the command was started, and none came up or went away for it since. Otherwise the
      command fell back to the local agent, or the connection was replaced, and whatever is sent to the
      session later goes to another host or nowhere. */
  lemma MappedToOwnTransport(start: System, steps: seq<Step>, s: System, id: SessionId) returns (k: nat)
    requires Initial(start) && CanRun(start, steps) && s == Run(start, steps) && id in s.desktop.sessionConnections
    ensures k < |steps| && steps[k].StartSpawn? && steps[k].id == id && CanRun(start, steps[..k])
    ensures id in s.desktop.clients && s.desktop.sessionConnections[id] == steps[k].named
    ensures Routed(s, steps[k].named, s.desktop.clients[id].via)
            <==> steps[k].named in Run(start, steps[..k]).desktop.routes && RouteStays(steps, k + 1, steps[k].named)
  {
    InitialInv(start);
    RunKeepsInv(start, steps);
    ClientOf(s, id);
    k := WasStarted(start, steps, id);
    StartedOwnRoute(start, steps, k, id, steps[k].named);
  }

  lemma CloseSends(s: System, id: SessionId)
    requires Enabled(s, CloseSpawned(id, true))
    ensures var route, t := s.desktop.routes[s.desktop.sessionConnections[id]], Apply(s, CloseSpawned(id, true));
            && t.conns == s.conns[route := s.conns[route].(requests := s.conns[route].requests + [CloseSession(id)])]
            && id !in t.desktop.sessionConnections
  {
  }

  /** Closing a session tells its own host exactly when its connection has its own transport; the session
      is forgotten either way. */
  lemma CloseReachesOwnHost(s: System, id: SessionId)
    requires Inv(s) && Enabled(s, CloseSpawned(id, true))
    ensures var via, t := s.desktop.clients[id].via, Apply(s, CloseSpawned(id, true));
            && id !in t.desktop.sessionConnections && via in s.conns && via in t.conns
            && t.conns[via].requests == s.conns[via].requests
               + if Routed(s, s.desktop.sessionConnections[id], via) then [CloseSession(id)] else []
  {
    ClientOf(s, id);
    CloseSends(s, id);
    ConcatEmpty(s.conns[s.desktop.clients[id].via].requests);
  }

  /** Why a session is mapped: its command returned with the pid under which the host at the other end
      of the command's own transport had it in its table, as that host answered. */
  ghost predicate RightlyMapped(s: System, id: SessionId) {
    && id in s.desktop.clients && id in s.desktop.sessionConnections
    && var c := s.desktop.clients[id];
       && c.conn == s.desktop.sessionConnections[id] && c.via in s.conns
       && c.phase.Returned? && c.phase.result.Spawned?
       && var pid := c.phase.result.pid;
          && id in s.conns[c.via].answered && s.conns[c.via].answered[id] == Ack(pid)
          && id in s.conns[c.via].everRegistered && s.conns[c.via].everRegistered[id] == pid
  }

  lemma MappedRightly(s: System, id: SessionId)
    requires Inv(s) && id in s.desktop.sessionConnections
    ensures RightlyMapped(s, id)
  {
    ClientOf(s, id);
    ConnOf(s, s.desktop.clients[id].via);
  }

  /** In every run from the start, with any interleaving of commands, relays and hosts over any
      number of connections: no waiter fires twice; a waiter fires only with the answer its own
      transport's host gave for its own session; a command that has returned has no waiter
      left; and a session is mapped to a connection only after an ack of that host, for an entry
      that its table had. */
  lemma SpawnSafety(start: System, steps: seq<Step>, s: System)
    requires Initial(start) && CanRun(start, steps) && s == Run(start, steps)
    ensures forall i, j :: 0 <= i < j < |s.fired| ==> s.fired[i].0 != s.fired[j].0
    ensures forall i :: 0 <= i < |s.fired| ==> FiringRecorded(s.desktop, s.conns, s.fired[i].0, s.fired[i].1)
    ensures forall id :: id in s.desktop.clients && s.desktop.clients[id].phase.Returned? ==>
              id !in s.desktop.pendingAcks
    ensures forall id :: id in s.desktop.sessionConnections ==> RightlyMapped(s, id)
    ensures forall conn :: conn in s.conns ==> |s.conns[conn].host.sessions| <= MAX_SESSIONS
  {
    InitialInv(start);
    RunKeepsInv(start, steps);
    forall id | id in s.desktop.sessionConnections ensures RightlyMapped(s, id) {
      MappedRightly(s, id);
    }
    forall id | id in s.desktop.clients && s.desktop.clients[id].phase.Returned? ensures id !in s.desktop.pendingAcks {
      assert ClientInv(s, id);
    }
  }

  // ---- A session that is mapped to the wrong host ----

  const READY := SpawnChance(true, true, Some(1))

  /** Only the local agent is there. */
  function JustLocal(): System {
    System(Desktop(map[], {}, map[], map[]), map[Local := NEW_CONNECTION], [])
  }

  /** A spawn for a connection without a transport, on its way over the local agent. */
  ghost predicate OnItsWay(s: System, id: SessionId, conn: ConnId, phase: Phase, slot: Option<SpawnReply>,
                           waits: bool)
  {
    && id in s.desktop.clients && s.desktop.clients[id] == Client(conn, Local, phase, slot)
    && (id in s.desktop.pendingAcks <==> waits) && id !in s.desktop.sessionConnections && conn !in s.desktop.routes
    && Local in s.conns && s.conns[Local].relayRuns && Remote(1) !in s.conns
  }

  lemma EarlyStart(id: SessionId, conn: ConnId)
    ensures Enabled(JustLocal(), StartSpawn(id, conn))
    ensures var t := Apply(JustLocal(), StartSpawn(id, conn));
            OnItsWay(t, id, conn, Registered, None, true) && t.conns[Local] == NEW_CONNECTION
  {
  }

  lemma EarlyRequest(s: System, id: SessionId, conn: ConnId)
    requires OnItsWay(s, id, conn, Registered, None, true) && s.conns[Local] == NEW_CONNECTION
    ensures Enabled(s, RequestGoesOut(id))
    ensures var t := Apply(s, RequestGoesOut(id));
            && OnItsWay(t, id, conn, Sending, None, true)
            && t.conns[Local] == NEW_CONNECTION.(requests := [SpawnSession(id)])
  {
    ConcatEmpty([SpawnSession(id)]);
  }

  lemma EarlyReturn(s: System, id: SessionId, conn: ConnId)
    requires OnItsWay(s, id, conn, Sending, None, true)
    ensures Enabled(s, SendReturns(id, true))
    ensures var t := Apply(s, SendReturns(id, true)); OnItsWay(t, id, conn, Waiting, None, true) && t.conns == s.conns
  {
  }

  lemma EarlyAnswer(s: System, id: SessionId, conn: ConnId)
    requires OnItsWay(s, id, conn, Waiting, None, true)
    requires s.conns[Local] == NEW_CONNECTION.(requests := [SpawnSession(id)])
    ensures Enabled(s, HostStep(Local, READY))
    ensures var t := Apply(s, HostStep(Local, READY));
            && OnItsWay(t, id, conn, Waiting, None, true) && id in t.conns[Local].host.sessions
            && t.conns[Local].responses == [SpawnResponse(id, Ack(1))]
  {
    ConcatEmpty([SpawnResponse(id, Ack(1))]);
  }

  lemma EarlyAck(s: System, id: SessionId, conn: ConnId)
    requires OnItsWay(s, id, conn, Waiting, None, true) && id in s.conns[Local].host.sessions
    requires s.conns[Local].responses == [SpawnResponse(id, Ack(1))]
    ensures Enabled(s, RelayStep(Local))
    ensures var t := Apply(s, RelayStep(Local));
            OnItsWay(t, id, conn, Waiting, Some(Ack(1)), false) && id in t.conns[Local].host.sessions
  {
  }

  /** The session runs on the local host, but is mapped to a connection to another one, which never
      heard of it. */
  predicate IsMisrouted(s: System, id: SessionId, conn: ConnId) {
    && id in s.desktop.sessionConnections && s.desktop.sessionConnections[id] == conn
    && conn in s.desktop.routes && s.desktop.routes[conn] == Remote(1)
    && Local in s.conns && id in s.conns[Local].host.sessions
    && Remote(1) in s.conns && id !in s.conns[Remote(1)].host.sessions
  }

  lemma ConnectionComesLate(s: System, id: SessionId, conn: ConnId)
    requires OnItsWay(s, id, conn, Waiting, Some(Ack(1)), false) && id in s.conns[Local].host.sessions
    ensures Enabled(s, ConnectionUp(conn, 1)) && Enabled(Apply(s, ConnectionUp(conn, 1)), WakeSpawn(id))
    ensures IsMisrouted(Apply(Apply(s, ConnectionUp(conn, 1)), WakeSpawn(id)), id, conn)
  {
  }

  lemma {:induction false} RunOneMore(s: System, steps: seq<Step>, step: Step)
    requires CanRun(s, steps) && Enabled(Run(s, steps), step)
    ensures CanRun(s, steps + [step]) && Run(s, steps + [step]) == Apply(Run(s, steps), step)
    decreases |steps|
  {
    if steps == [] {
      ConcatEmpty([step]);
      assert [step][1..] == [];
    } else {
      assert (steps + [step])[1..] == steps[1..] + [step];
      RunOneMore(Apply(s, steps[0]), steps[1..], step);
    }
  }

  /** The first five steps: the local host has the session, and its ack is in the waiting command's slot. */
  lemma LocalAcks(id: SessionId, conn: ConnId) returns (steps: seq<Step>)
    ensures CanRun(JustLocal(), steps)
    ensures var s := Run(JustLocal(), steps);
            OnItsWay(s, id, conn, Waiting, Some(Ack(1)), false) && id in s.conns[Local].host.sessions
  {
    var start := JustLocal();
    EarlyStart(id, conn);
    RunOneMore(start, [], StartSpawn(id, conn));
    var one := [] + [StartSpawn(id, conn)];
    EarlyRequest(Run(start, one), id, conn);
    RunOneMore(start, one, RequestGoesOut(id));
    var two := one + [RequestGoesOut(id)];
    EarlyReturn(Run(start, two), id, conn);
    RunOneMore(start, two, SendReturns(id, true));
    var three := two + [SendReturns(id, true)];
    EarlyAnswer(Run(start, three), id, conn);
    RunOneMore(start, three, HostStep(Local, READY));
    var four := three + [HostStep(Local, READY)];
    EarlyAck(Run(start, four), id, conn);
    RunOneMore(start, four, RelayStep(Local));
    steps := four + [RelayStep(Local)];
  }

  /** A spawn for a connection that is still coming up ends mapped to the wrong host. */
  lemma EarlySpawnIsMisrouted(id: SessionId, conn: ConnId) returns (steps: seq<Step>)
    ensures Initial(JustLocal()) && CanRun(JustLocal(), steps) && IsMisrouted(Run(JustLocal(), steps), id, conn)
  {
    var start := JustLocal();
    var acked := LocalAcks(id, conn);
    ConnectionComesLate(Run(start, acked), id, conn);
    RunOneMore(start, acked, ConnectionUp(conn, 1));
    RunOneMore(start, acked + [ConnectionUp(conn, 1)], WakeSpawn(id));
    steps := acked + [ConnectionUp(conn, 1)] + [WakeSpawn(id)];
  }
}
