/** The session table of the remote host, and the spawn and close requests that change it. */
module HostServer {
  import opened Common

  type SessionId = string

  const MAX_SESSIONS: nat := 32

  datatype ErrorCode = SessionAlreadyExists | SpawnFailed | SessionNotFound

  /** What the host keeps: the pids of the registered sessions, and the sessions with a tap proxy. */
  datatype Host = Host(sessions: map<SessionId, nat>, proxies: set<SessionId>)

  /** What the machine does with a spawn request: whether a proxy is wanted and starts, whether
      the tool is there, and the pid of the child if the pseudo-terminal could be opened. */
  datatype SpawnChance = SpawnChance(proxyStarts: bool, toolFound: bool, pid: Option<nat>)

  datatype SpawnReply = Ack(pid: nat) | Nack(reason: string)

  datatype CloseReply = CloseAck | CloseError(code: ErrorCode)

  function RegisterError(sessions: map<SessionId, nat>, id: SessionId): Option<ErrorCode> {
    if id in sessions then Some(SessionAlreadyExists)
    else if |sessions| >= MAX_SESSIONS then Some(SpawnFailed)
    else None
  }

  function AfterSpawn(h: Host, id: SessionId, chance: SpawnChance): Host {
    var proxies := if chance.proxyStarts then h.proxies + {id} else h.proxies;
    if chance.toolFound && chance.pid.Some? && RegisterError(h.sessions, id).None?
    then Host(h.sessions[id := chance.pid.value], proxies)
    else Host(h.sessions, proxies)
  }

  function SpawnAnswer(h: Host, id: SessionId, chance: SpawnChance): SpawnReply {
    if !chance.toolFound then Nack("Tool not available")
    else if chance.pid.None? then Nack("PTY spawn failed")
    else if RegisterError(h.sessions, id).Some? then Nack("Registration failed")
    else Ack(chance.pid.value)
  }

  function AfterClose(h: Host, id: SessionId): Host {
    Host(h.sessions - {id}, h.proxies - {id})
  }

  class SessionRegistry {
    var sessions: map<SessionId, nat>

    constructor ()
      ensures sessions == map[]
    {
      sessions := map[];
    }

    method Register(id: SessionId, pid: nat) returns (r: Result<nat, ErrorCode>)
      modifies this
      ensures match RegisterError(old(sessions), id)
              case Some(e) => r == Err(e) && sessions == old(sessions)
              case None => r == Ok(pid) && sessions == old(sessions)[id := pid]
    {
      if id in sessions {
        return Err(SessionAlreadyExists);
      }
      if |sessions| >= MAX_SESSIONS {
        return Err(SpawnFailed);
      }
      sessions := sessions[id := pid];
      return Ok(pid);
    }

    method Get(id: SessionId) returns (pid: Option<nat>)
      ensures pid == if id in sessions then Some(sessions[id]) else None
    {
      pid := if id in sessions then Some(sessions[id]) else None;
    }

    method Remove(id: SessionId) returns (pid: Option<nat>)
      modifies this
      ensures pid == if id in old(sessions) then Some(old(sessions)[id]) else None
      ensures sessions == old(sessions) - {id}
    {
      pid := if id in sessions then Some(sessions[id]) else None;
      sessions := sessions - {id};
    }
  }

  class Server {
    const registry: SessionRegistry
    var tapProxies: set<SessionId>

    constructor ()
      ensures fresh(registry) && HostState() == Host(map[], {})
    {
      registry := new SessionRegistry();
      tapProxies := {};
    }

    function HostState(): Host
      reads this, registry
    {
      Host(registry.sessions, tapProxies)
    }

    /** A spawn request is answered exactly once, and with an ack only after registration. */
    method HandleSpawn(id: SessionId, chance: SpawnChance) returns (reply: SpawnReply)
      modifies this, registry
      ensures HostState() == AfterSpawn(old(HostState()), id, chance)
      ensures reply == SpawnAnswer(old(HostState()), id, chance)
      ensures reply.Ack? ==> id in registry.sessions && id !in old(registry.sessions)
      ensures reply.Nack? ==> registry.sessions == old(registry.sessions)
    {
      if chance.proxyStarts {
        tapProxies := tapProxies + {id};
      }
      if !chance.toolFound {
        return Nack("Tool not available");
      }
      if chance.pid.None? {
        return Nack("PTY spawn failed");
      }
      var r := registry.Register(id, chance.pid.value);
      if r.Err? {
        return Nack("Registration failed");
      }
      return Ack(chance.pid.value);
    }

    method HandleClose(id: SessionId) returns (reply: CloseReply)
      modifies this, registry
      ensures HostState() == AfterClose(old(HostState()), id)
      ensures reply == if id in old(registry.sessions) then CloseAck else CloseError(SessionNotFound)
    {
      tapProxies := tapProxies - {id};
      var s := registry.Get(id);
      if s.None? {
        assert registry.sessions - {id} == registry.sessions;
        return CloseError(SessionNotFound);
      }
      var _ := registry.Remove(id);
      return CloseAck;
    }
  }

  /** A call on a registry, with its result. */
  datatype Call = Registering(id: SessionId, pid: nat, ok: bool) | Removing(id: SessionId)

  function AfterCall(t: map<SessionId, nat>, call: Call): map<SessionId, nat> {
    match call
    case Registering(id, pid, ok) => if ok then t[id := pid] else t
    case Removing(id) => t - {id}
  }

  /** The table that the first `n` calls leave. */
  function Table(calls: seq<Call>, n: nat): map<SessionId, nat>
    requires n <= |calls|
  {
    if n == 0 then map[] else AfterCall(Table(calls, n - 1), calls[n - 1])
  }

  /** No call from `lo` to `hi` removes the session or registers it anew. */
  predicate LeftAlone(calls: seq<Call>, lo: nat, hi: nat, id: SessionId)
    requires lo <= hi <= |calls|
  {
    forall j :: lo <= j < hi && calls[j].id == id ==> calls[j].Registering? && !calls[j].ok
  }

  /** The same call, whatever its result. */
  predicate SameCall(a: Call, b: Call) {
    match a
    case Registering(id, pid, _) => b.Registering? && b.id == id && b.pid == pid
    case Removing(id) => b == a
  }

  /** The cap holds through every request. */
  lemma CapIsKept(h: Host, id: SessionId, chance: SpawnChance)
    requires |h.sessions| <= MAX_SESSIONS
    ensures |AfterSpawn(h, id, chance).sessions| <= MAX_SESSIONS
    ensures |AfterClose(h, id).sessions| <= MAX_SESSIONS
  {
    assert AfterClose(h, id).sessions.Keys == h.sessions.Keys - {id};
    assert |h.sessions.Keys - {id}| <= |h.sessions.Keys|;
  }

  /** One call, and the result that the registry gives. */
  method Perform(registry: SessionRegistry, wanted: Call) returns (call: Call)
    requires |registry.sessions| <= MAX_SESSIONS
    modifies registry
    ensures SameCall(call, wanted)
    ensures call.Registering? ==> call.ok == RegisterError(old(registry.sessions), call.id).None?
    ensures registry.sessions == AfterCall(old(registry.sessions), call) && |registry.sessions| <= MAX_SESSIONS
  {
    match wanted {
      case Registering(i, pid, _) =>
        var r := registry.Register(i, pid);
        call := Registering(i, pid, r.Ok?);
      case Removing(i) =>
        CapIsKept(Host(registry.sessions, {}), i, SpawnChance(false, false, None));
        var _ := registry.Remove(i);
        call := Removing(i);
    }
  }

  lemma {:induction false} TablePrefix(calls: seq<Call>, call: Call, n: nat)
    requires n <= |calls|
    ensures Table(calls + [call], n) == Table(calls, n)
  {
    if n > 0 {
      TablePrefix(calls, call, n - 1);
    }
  }

  lemma TableNext(calls: seq<Call>, call: Call)
    ensures Table(calls + [call], |calls| + 1) == AfterCall(Table(calls, |calls|), call)
  {
    TablePrefix(calls, call, |calls|);
  }

  /** The calls so far are the wanted ones, whatever their results. */
  predicate Follows(calls: seq<Call>, wanted: seq<Call>) {
    |calls| <= |wanted| && forall k :: 0 <= k < |calls| ==> SameCall(calls[k], wanted[k])
  }

  lemma FollowsNext(calls: seq<Call>, wanted: seq<Call>, call: Call)
    requires Follows(calls, wanted) && |calls| < |wanted| && SameCall(call, wanted[|calls|])
    ensures Follows(calls + [call], wanted)
  {
  }

  /** The methods of a registry, called one after the other, leave the table of their calls; looking up
      afterwards finds what it holds. */
  method RunCalls(wanted: seq<Call>, id: SessionId) returns (calls: seq<Call>, found: Option<nat>)
    ensures |calls| == |wanted| && Follows(calls, wanted)
    ensures |Table(calls, |calls|)| <= MAX_SESSIONS
    ensures found.Some? <==> id in Table(calls, |calls|)
    ensures found.Some? ==> found.value == Table(calls, |calls|)[id]
  {
    var registry := new SessionRegistry();
    calls := [];
    for n := 0 to |wanted|
      invariant |calls| == n && Follows(calls, wanted)
      invariant registry.sessions == Table(calls, n) && |registry.sessions| <= MAX_SESSIONS
    {
      var call := Perform(registry, wanted[n]);
      TableNext(calls, call);
      FollowsNext(calls, wanted, call);
      calls := calls + [call];
    }
    found := registry.Get(id);
  }

  /** What a lookup finds is the pid of a call that registered the session, and the session was left
      alone since. */
  lemma {:induction false} FoundWasRegistered(calls: seq<Call>, n: nat, id: SessionId) returns (k: nat)
    requires n <= |calls| && id in Table(calls, n)
    ensures k < n && calls[k] == Registering(id, Table(calls, n)[id], true) && LeftAlone(calls, k + 1, n, id)
  {
    var last := calls[n - 1];
    if last.Registering? && last.ok && last.id == id {
      k := n - 1;
    } else {
      k := FoundWasRegistered(calls, n - 1, id);
    }
  }

  /** And the other way round: a session that a call registered, and that was left alone since, is found
      with the pid of that call. */
  lemma {:induction false} RegisteredIsFound(calls: seq<Call>, k: nat, n: nat, id: SessionId, pid: nat)
    requires k < n <= |calls| && calls[k] == Registering(id, pid, true) && LeftAlone(calls, k + 1, n, id)
    ensures id in Table(calls, n) && Table(calls, n)[id] == pid
  {
    if k < n - 1 {
      RegisteredIsFound(calls, k, n - 1, id, pid);
    }
  }
}
