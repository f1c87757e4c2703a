/**
  An interactive pair: two sessions built together, registered, hosted, trusted and closed.
  Runtimes are shared objects: the registry hands out references to them, so closing or
  trusting one through the registry is seen by everyone who holds it.

  Each await is one atomic step; whether the swarm admits the pair is an input.
 */
module PairSessions {
  import opened Options

  // ------------------------------------------------------------ the objects

  datatype Peer = A | B

  function OtherPeer(p: Peer): Peer {
    if p == A then B else A
  }

  datatype Directive = Directive(own: Peer, other: Peer, task: string)

  class Runtime {
    const id: nat
    var closed: bool
    var trusted: bool
    var discoveryHints: nat
    var prompts: seq<Directive>

    constructor (id: nat)
      ensures this.id == id && !closed && !trusted && discoveryHints == 0 && prompts == []
    {
      this.id := id;
      closed, trusted, discoveryHints, prompts := false, false, 0, [];
    }

    method Close()
      modifies this`closed
      ensures closed
    {
      closed := true;
    }

    method AppendSystemPrompt(d: Directive)
      modifies this`prompts
      ensures prompts == old(prompts) + [d]
    {
      prompts := prompts + [d];
    }
  }

  class SessionHost {
    const session: nat
    var cancelled: bool

    constructor (session: nat)
      ensures this.session == session && !cancelled
    {
      this.session, cancelled := session, false;
    }

    method Cancel()
      modifies this`cancelled
      ensures cancelled
    {
      cancelled := true;
    }
  }

  /** Sessions by identifier; a live one is never replaced. */
  class SessionRegistry {
    var sessions: map<nat, Runtime>

    constructor ()
      ensures sessions == map[]
    {
      sessions := map[];
    }

    predicate Valid()
      reads this
    {
      forall id :: id in sessions ==> sessions[id].id == id
    }

    ghost function Handles(): set<Runtime>
      reads this
    {
      set id | id in sessions :: sessions[id]
    }

    ghost function HandlesOf(ids: seq<nat>): set<Runtime>
      reads this
    {
      set id | id in sessions && id in ids :: sessions[id]
    }

    /** The runtime is taken on both outcomes. */
    method Register(runtime: Runtime) returns (ok: bool)
      requires Valid()
      modifies this
      ensures Valid() && (ok <==> runtime.id !in old(sessions))
      ensures sessions == if ok then old(sessions)[runtime.id := runtime] else old(sessions)
    {
      if runtime.id in sessions {
        return false;
      }
      sessions := sessions[runtime.id := runtime];
      return true;
    }

    method Remove(id: nat)
      modifies this
      ensures sessions == old(sessions) - {id}
    {
      sessions := sessions - {id};
    }

    function Get(id: nat): Option<Runtime>
      reads this
    {
      if id in sessions then Some(sessions[id]) else None
    }
  }

  class SwarmHost {
    var hosts: map<nat, SessionHost>

    constructor ()
      ensures hosts == map[]
    {
      hosts := map[];
    }

    predicate Valid()
      reads this
    {
      forall id :: id in hosts ==> hosts[id].session == id
    }

    ghost function HostsOf(ids: seq<nat>): set<SessionHost>
      reads this
    {
      set id | id in hosts && id in ids :: hosts[id]
    }

    method Unhost(session: nat)
      modifies this
      ensures hosts == old(hosts) - {session}
    {
      hosts := hosts - {session};
    }

    /** Host both sessions, if both are registered and the swarm admits them; no partial pair. */
    method AdoptPair(registry: SessionRegistry, first: nat, second: nat, admits: bool) returns (ok: bool)
      requires Valid() && first != second
      modifies this
      ensures Valid()
      ensures ok <==> admits && first in registry.sessions && second in registry.sessions
      ensures !ok ==> hosts == old(hosts)
      ensures ok ==> hosts.Keys == old(hosts).Keys + {first, second}
      ensures ok ==> forall id :: id in old(hosts) ==> hosts[id] == old(hosts)[id]
      ensures ok ==> forall id :: id in {first, second} && id !in old(hosts) ==> fresh(hosts[id]) && !hosts[id].cancelled
    {
      if registry.Get(first) == None || registry.Get(second) == None || !admits {
        return false;
      }
      HostFor(first);
      HostFor(second);
      return true;
    }

    method HostFor(session: nat)
      requires Valid()
      modifies this
      ensures Valid() && session in hosts
      ensures session in old(hosts) ==> hosts == old(hosts)
      ensures session !in old(hosts) ==> hosts == old(hosts)[session := hosts[session]]
                                         && fresh(hosts[session]) && !hosts[session].cancelled
    {
      if session !in hosts {
        var host := new SessionHost(session);
        hosts := hosts[session := host];
      }
    }
  }

  // ------------------------------------------------------------ teardown

  /** Everything a pair touches outside its two runtimes. */
  class House {
    const registry: SessionRegistry
    const swarm: SwarmHost
    // Sessions whose context was closed out, in order.
    var closedOut: seq<nat>

    constructor (registry: SessionRegistry, swarm: SwarmHost)
      ensures this.registry == registry && this.swarm == swarm && closedOut == []
    {
      this.registry, this.swarm, closedOut := registry, swarm, [];
    }

    /** Only registered sessions are hosted. */
    ghost predicate Valid()
      reads this, registry, swarm
    {
      registry.Valid() && swarm.Valid() && swarm.hosts.Keys <= registry.sessions.Keys
    }

    /** Cancel, close, unhost and remove: no trace of these sessions is left, and no other is touched. */
    method CloseRegistered(sessions: seq<nat>)
      requires Valid()
      modifies registry, swarm, registry.HandlesOf(sessions)`closed, swarm.HostsOf(sessions)`cancelled
      ensures Valid()
      ensures registry.sessions == old(registry.sessions) - (set id | id in sessions)
      ensures swarm.hosts == old(swarm.hosts) - (set id | id in sessions)
      ensures forall r :: r in old(registry.HandlesOf(sessions)) ==> r.closed
      ensures forall h :: h in old(swarm.HostsOf(sessions)) ==> h.cancelled
    {
      CancelHosts(sessions);
      CloseRuntimes(sessions);
      UnhostAll(sessions);
      RemoveAll(sessions);
    }

    method CancelHosts(sessions: seq<nat>)
      requires Valid()
      modifies swarm.HostsOf(sessions)`cancelled
      ensures forall h :: h in swarm.HostsOf(sessions) ==> h.cancelled
    {
      for i := 0 to |sessions|
        invariant forall id :: id in swarm.hosts && id in sessions[..i] ==> swarm.hosts[id].cancelled
      {
        if sessions[i] in swarm.hosts {
          assert swarm.hosts[sessions[i]] in swarm.HostsOf(sessions);
          swarm.hosts[sessions[i]].Cancel();
        }
      }
      assert sessions[..|sessions|] == sessions;
    }

    method CloseRuntimes(sessions: seq<nat>)
      requires Valid()
      modifies registry.HandlesOf(sessions)`closed
      ensures forall r :: r in registry.HandlesOf(sessions) ==> r.closed
    {
      for i := 0 to |sessions|
        invariant forall id :: id in registry.sessions && id in sessions[..i] ==> registry.sessions[id].closed
      {
        var handle := registry.Get(sessions[i]);
        if handle.Some? {
          assert handle.value in registry.HandlesOf(sessions);
          handle.value.Close();
        }
      }
      assert sessions[..|sessions|] == sessions;
    }

    method UnhostAll(sessions: seq<nat>)
      modifies swarm
      ensures swarm.hosts == old(swarm.hosts) - (set id | id in sessions)
    {
      for i := 0 to |sessions|
        invariant swarm.hosts == old(swarm.hosts) - (set id | id in sessions[..i])
      {
        assert sessions[..i + 1] == sessions[..i] + [sessions[i]];
        swarm.Unhost(sessions[i]);
      }
      assert sessions[..|sessions|] == sessions;
    }

    method RemoveAll(sessions: seq<nat>)
      modifies registry
      ensures registry.sessions == old(registry.sessions) - (set id | id in sessions)
    {
      for i := 0 to |sessions|
        invariant registry.sessions == old(registry.sessions) - (set id | id in sessions[..i])
      {
        assert sessions[..i + 1] == sessions[..i] + [sessions[i]];
        registry.Remove(sessions[i]);
      }
      assert sessions[..|sessions|] == sessions;
    }

    method CloseUnhosted(runtime: Runtime)
      modifies this`closedOut, runtime`closed
      ensures runtime.closed && closedOut == old(closedOut) + [runtime.id]
    {
      runtime.Close();
      closedOut := closedOut + [runtime.id];
    }
  }

  // ------------------------------------------------------------ construction

  /** The second session's build failed: the first is closed. Otherwise each is told of the other. */
  method FinishPairBuild(house: House, task: string, a: Runtime, b: Option<Runtime>) returns (built: bool)
    requires b.Some? ==> b.value != a
    modifies house`closedOut, a`closed, a`prompts, (if b.Some? then {b.value} else {})`prompts
    ensures built <==> b.Some?
    ensures !built ==> a.closed && a.prompts == old(a.prompts) && house.closedOut == old(house.closedOut) + [a.id]
    ensures built ==> a.closed == old(a.closed) && house.closedOut == old(house.closedOut)
    ensures built ==> a.prompts == old(a.prompts) + [Directive(A, B, task)]
    ensures built ==> b.value.prompts == old(b.value.prompts) + [Directive(B, A, task)]
  {
    match b {
      case None =>
        house.CloseUnhosted(a);
        return false;
      case Some(session) =>
        a.AppendSystemPrompt(Directive(A, OtherPeer(A), task));
        session.AppendSystemPrompt(Directive(B, OtherPeer(B), task));
        return true;
    }
  }

  datatype Built = Hosted | SameIds | Present(id: nat) | NotAdmitted

  /**
    All or nothing: either both sessions are registered and hosted, or the registry and the
    hosts are exactly what they were and each session still owned has been closed. No other
    session is touched either way.
   */
  method FromBundle(house: House, a: Runtime, b: Runtime, admits: bool) returns (built: Built)
    requires house.Valid() && a != b && !a.closed && !b.closed
    requires a !in house.registry.Handles() && b !in house.registry.Handles()
    modifies house`closedOut, house.registry, house.swarm, a`closed, b`closed
    ensures house.Valid()
    ensures built == if a.id == b.id then SameIds
                     else if a.id in old(house.registry.sessions) then Present(a.id)
                     else if b.id in old(house.registry.sessions) then Present(b.id)
                     else if !admits then NotAdmitted
                     else Hosted
    ensures built != Hosted ==> house.registry.sessions == old(house.registry.sessions)
    ensures built != Hosted ==> house.swarm.hosts == old(house.swarm.hosts)
    ensures built == Hosted ==> house.registry.sessions == old(house.registry.sessions)[a.id := a][b.id := b]
    ensures built == Hosted ==> house.swarm.hosts.Keys == old(house.swarm.hosts).Keys + {a.id, b.id}
    ensures built == Hosted ==> forall id :: id in {a.id, b.id} ==> !house.swarm.hosts[id].cancelled
    ensures built == Hosted ==> forall id :: id in old(house.swarm.hosts) ==> house.swarm.hosts[id] == old(house.swarm.hosts)[id]
    ensures a.closed <==> built in {SameIds, NotAdmitted} || (built.Present? && a.id !in old(house.registry.sessions))
    ensures b.closed <==> built in {SameIds, NotAdmitted} || (built.Present? && a.id in old(house.registry.sessions))
    ensures house.closedOut == old(house.closedOut) + (if a.closed then [a.id] else []) + (if b.closed then [b.id] else [])
  {
    if a.id == b.id {
      house.CloseUnhosted(a);
      house.CloseUnhosted(b);
      return SameIds;
    }
    ghost var sessions, hosts := house.registry.sessions, house.swarm.hosts;
    var registered := house.registry.Register(a);
    if !registered {
      house.CloseUnhosted(b);
      return Present(a.id);
    }
    registered := house.registry.Register(b);
    if !registered {
      TakeBack(house, a, b, [a.id]);
      return Present(b.id);
    }
    var adopted := house.swarm.AdoptPair(house.registry, a.id, b.id, admits);
    if !adopted {
      TakeBack(house, a, b, [a.id, b.id]);
      return NotAdmitted;
    }
    return Hosted;
  }

  /** What is registered under these identifiers are the pair's own runtimes, not hosted yet. */
  ghost predicate Ours(house: House, a: Runtime, b: Runtime, ids: seq<nat>)
    reads house, house.registry, house.swarm
  {
    && house.Valid()
    && (forall id :: id in ids ==> id in house.registry.sessions && id !in house.swarm.hosts)
    && (forall id :: id in ids ==> house.registry.sessions[id] == a || house.registry.sessions[id] == b)
  }

  lemma OnlyOurs(house: House, a: Runtime, b: Runtime, ids: seq<nat>)
    requires Ours(house, a, b, ids)
    ensures house.registry.HandlesOf(ids) <= {a, b} && house.swarm.HostsOf(ids) == {}
    ensures forall id :: id in ids ==> house.registry.sessions[id] in house.registry.HandlesOf(ids)
  {
  }

  /** Sessions registered a moment ago go again, closed. */
  method TakeBack(house: House, a: Runtime, b: Runtime, ids: seq<nat>)
    requires Ours(house, a, b, ids)
    modifies house`closedOut, house.registry, house.swarm, a`closed, b`closed
    ensures house.Valid()
    ensures house.registry.sessions == old(house.registry.sessions) - (set id | id in ids)
    ensures house.swarm.hosts == old(house.swarm.hosts)
    ensures house.closedOut == old(house.closedOut) + ids
    ensures a.closed == (old(a.closed) || exists id :: id in ids && old(house.registry.sessions[id]) == a)
    ensures b.closed == (old(b.closed) || exists id :: id in ids && old(house.registry.sessions[id]) == b)
  {
    OnlyOurs(house, a, b, ids);
    ghost var hosts := house.swarm.hosts;
    house.CloseRegistered(ids);
    assert hosts - (set id | id in ids) == hosts;
    house.closedOut := house.closedOut + ids;
  }

  /** Closing a pair: neither session stays registered or hosted, and both are closed. */
  method ClosePair(house: House, a: nat, b: nat)
    requires house.Valid() && a in house.registry.sessions && b in house.registry.sessions
    modifies house`closedOut, house.registry, house.swarm
    modifies house.registry.HandlesOf([a, b])`closed, house.swarm.HostsOf([a, b])`cancelled
    ensures house.Valid()
    ensures house.registry.sessions == old(house.registry.sessions) - {a, b}
    ensures house.swarm.hosts == old(house.swarm.hosts) - {a, b}
    ensures old(house.registry.sessions[a]).closed && old(house.registry.sessions[b]).closed
    ensures forall h :: h in old(house.swarm.HostsOf([a, b])) ==> h.cancelled
    ensures house.closedOut == old(house.closedOut) + [a, b]
  {
    assert house.registry.sessions[a] in house.registry.HandlesOf([a, b]);
    assert house.registry.sessions[b] in house.registry.HandlesOf([a, b]);
    house.CloseRegistered([a, b]);
    house.closedOut := house.closedOut + [a, b];
  }

  method Trust(r: Runtime, hint: bool)
    modifies r`trusted, r`discoveryHints
    ensures r.trusted && r.discoveryHints == old(r.discoveryHints) + if hint then 1 else 0
  {
    r.trusted := true;
    if hint {
      r.discoveryHints := r.discoveryHints + 1;
    }
  }

  /** Trust reaches both runtimes or neither. */
  method GrantTrust(registry: SessionRegistry, a: nat, b: nat, hint: bool) returns (ok: bool)
    requires registry.Valid() && a != b
    modifies registry.Handles()`trusted, registry.Handles()`discoveryHints
    ensures ok <==> a in registry.sessions && b in registry.sessions
    ensures forall r :: r in registry.Handles() ==>
              var given := ok && (r.id == a || r.id == b);
              && r.trusted == (old(r.trusted) || given)
              && r.discoveryHints == old(r.discoveryHints) + if given && hint then 1 else 0
  {
    var first, second := registry.Get(a), registry.Get(b);
    if first == None || second == None {
      return false;
    }
    Trust(first.value, hint);
    Trust(second.value, hint);
    return true;
  }
}
