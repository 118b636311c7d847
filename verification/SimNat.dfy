/**
 The configurable NAT of the punch research simulator, as its own STUN observers see it: what one Binding
 Request does to the mapping table and which reply, if any, gets back through the filter.
 */
module SimNat {
  import opened Wrappers
  import opened Arithmetic

  datatype Addr = Addr(ip: nat, port: int)

  datatype Behaviour = EndpointIndependent | AddressDependent | AddressPortDependent

  datatype Filtering = NoFilter | Filter(kind: Behaviour)

  datatype Allocation = Linear | Random

  /** A mapping's key: which parts of the destination it depends on is the NAT's mapping behaviour. */
  datatype SimKey = EiKey(client: Addr) | AdKey(client: Addr, vip: nat) | ApdKey(client: Addr, vip: nat, port: int)

  datatype SimMapping = SimMapping(client: Addr, destVip: nat, destPort: int, port: int, bound: bool)

  datatype SimState = SimState(
    vipSelf: nat, portBase: int, portPool: int,
    mapping: Behaviour, allocation: Allocation, step: int, filtering: Filtering, words: nat -> int,
    nextPort: int, cursor: nat,
    mappings: map<SimKey, SimMapping>, mappingByPort: map<int, SimKey>, forwarders: set<int>)

  const VIP_C := 3
  const ALLOC_ATTEMPTS := 4096

  /** The five observers: their ports, and the server addresses they stand for. */
  function ObserverPort(s: SimState, i: nat): int {
    s.portBase + 1 + i
  }

  function ObserverVip(s: SimState, port: int): Option<nat> {
    var i := port - s.portBase;
    if i == 1 || i == 2 || i == 4 then Some(s.vipSelf) else if i == 3 || i == 5 then Some(VIP_C) else None
  }

  function ChangePortPartner(s: SimState, port: int): int
    requires ObserverVip(s, port).Some?
  {
    var i := port - s.portBase;
    s.portBase + if i == 1 then 2 else if i == 2 then 1 else if i == 3 then 5 else if i == 5 then 3 else 1
  }

  function ChangeIpPartner(s: SimState, port: int): int
    requires ObserverVip(s, port).Some?
  {
    var i := port - s.portBase;
    s.portBase + if i == 3 || i == 5 then 1 else 3
  }

  function MappingKey(s: SimState, client: Addr, vip: nat, port: int): SimKey {
    match s.mapping
    case EndpointIndependent => EiKey(client)
    case AddressDependent => AdKey(client, vip)
    case AddressPortDependent => ApdKey(client, vip, port)
  }

  predicate Fits(mapping: Behaviour, key: SimKey) {
    match mapping
    case EndpointIndependent => key.EiKey?
    case AddressDependent => key.AdKey?
    case AddressPortDependent => key.ApdKey?
  }

  predicate Taken(s: SimState, port: int) {
    ObserverVip(s, port).Some? || port in s.mappingByPort || port in s.forwarders
  }

  function Draw(s: SimState): int
    requires s.portPool > 0
  {
    if s.allocation.Linear? then s.nextPort else s.portBase + s.words(s.cursor) % s.portPool
  }

  function Drawn(s: SimState): SimState
    requires s.portPool > 0
  {
    if s.allocation.Linear? then s.(nextPort := (s.nextPort - s.portBase + s.step) % s.portPool + s.portBase)
    else s.(cursor := s.cursor + 1)
  }

  /** At most `attempts` draws; `None` is the exhausted pool. */
  function RawAlloc(s: SimState, attempts: nat): (SimState, Option<int>)
    requires s.portPool > 0
    decreases attempts
  {
    if attempts == 0 then (s, None)
    else if Taken(s, Draw(s)) then RawAlloc(Drawn(s), attempts - 1)
    else (Drawn(s), Some(Draw(s)))
  }

  /** The mapping for an outbound datagram: reused, with its latest destination, or freshly allocated. */
  function MappingFor(s: SimState, client: Addr, vip: nat, port: int): (SimState, Option<SimKey>)
    requires s.portPool > 0
  {
    var key := MappingKey(s, client, vip, port);
    if key in s.mappings then
      (s.(mappings := s.mappings[key := s.mappings[key].(destVip := vip, destPort := port)]), Some(key))
    else
      var (s', p) := RawAlloc(s, ALLOC_ATTEMPTS);
      match p
      case None => (s', None)
      case Some(mapped) =>
        (s'.(mappings := s.mappings[key := SimMapping(client, vip, port, mapped, false)],
             mappingByPort := s.mappingByPort[mapped := key]), Some(key))
  }

  predicate FilteringAllows(s: SimState, m: SimMapping, vip: nat, port: int) {
    match s.filtering
    case NoFilter => true
    case Filter(EndpointIndependent) => true
    case Filter(AddressDependent) => vip == m.destVip
    case Filter(AddressPortDependent) => vip == m.destVip && port == m.destPort
  }

  /** A Binding Request at an observer. In `change`, bit 0 asks for another address and bit 1 for another port. */
  datatype Request = Request(client: Addr, observer: int, change: nat)

  datatype Reply = Reply(source: int, mapped: int)

  /** The address a change request asks the answer to come from. */
  function ChangeSource(s: SimState, observer: int, change: nat): Option<int>
    requires ObserverVip(s, observer).Some?
  {
    if change % 2 == 1 then Some(ChangeIpPartner(s, observer))
    else if change / 2 % 2 == 1 then Some(ChangePortPartner(s, observer))
    else None
  }

  datatype Answer = Answer(state: SimState, reply: Option<Reply>, raised: bool)

  function HandleStun(s: SimState, r: Request): Answer
    requires s.portPool > 0
  {
    match ObserverVip(s, r.observer)
    case None => Answer(s, None, false)
    case Some(vip) =>
      var (s', key) := MappingFor(s, r.client, vip, r.observer);
      match key
      case None => Answer(s', None, true)
      case Some(k) =>
        var m := s'.mappings[k];
        match ChangeSource(s, r.observer, r.change)
        case None => Answer(s', Some(Reply(r.observer, m.port)), false)
        case Some(source) =>
          if FilteringAllows(s', m, ObserverVip(s, source).value, source)
          then Answer(s', Some(Reply(source, m.port)), false)
          else Answer(s', None, false)
  }

  /** A forwarder that could be opened, and one whose port the host already used. */
  function BindForwarder(s: SimState, key: SimKey): SimState
    requires key in s.mappings
  {
    var m := s.mappings[key];
    s.(mappings := s.mappings[key := m.(bound := true)], forwarders := s.forwarders + {m.port})
  }

  function RebindForwarder(s: SimState, key: SimKey): SimState
    requires s.portPool > 0 && key in s.mappings
  {
    var (s', p) := RawAlloc(s, ALLOC_ATTEMPTS);
    match p
    case None => s'
    case Some(port) =>
      var m := s.mappings[key];
      s'.(mappings := s.mappings[key := m.(port := port)],
          mappingByPort := (s.mappingByPort - {m.port})[port := key])
  }

  /** The table and its index are inverse to each other, and its keys are of the NAT's kind, whatever it has done before. */
  ghost predicate Valid(s: SimState) {
    && s.portPool > 0 && s.vipSelf != VIP_C && (forall k | k in s.mappings :: Fits(s.mapping, k))
    && (forall k | k in s.mappings :: s.mappings[k].port in s.mappingByPort && s.mappingByPort[s.mappings[k].port] == k)
    && (forall p | p in s.mappingByPort :: s.mappingByPort[p] in s.mappings && s.mappings[s.mappingByPort[p]].port == p)
  }

  ghost predicate SameOptions(s: SimState, s': SimState) {
    && (s'.vipSelf, s'.portBase, s'.portPool, s'.step) == (s.vipSelf, s.portBase, s.portPool, s.step)
    && (s'.mapping, s'.allocation, s'.filtering) == (s.mapping, s.allocation, s.filtering)
  }

  /** No mapping is lost or moved to another port. */
  ghost predicate Keeps(s: SimState, s': SimState) {
    && SameOptions(s, s')
    && forall k | k in s.mappings :: k in s'.mappings && s'.mappings[k].port == s.mappings[k].port
  }

  lemma {:induction false} RawAllocFinds(s: SimState, attempts: nat)
    requires s.portPool > 0
    ensures var (s', p) := RawAlloc(s, attempts);
      && SameOptions(s, s') && s'.mappings == s.mappings && s'.mappingByPort == s.mappingByPort && s'.forwarders == s.forwarders
      && (p.Some? ==> !Taken(s, p.value))
    decreases attempts
  {
    if attempts != 0 && Taken(s, Draw(s)) {
      RawAllocFinds(Drawn(s), attempts - 1);
      assert forall p :: Taken(Drawn(s), p) == Taken(s, p);
    }
  }

  lemma MappingForKeeps(s: SimState, client: Addr, vip: nat, port: int)
    requires Valid(s)
    ensures var (s', key) := MappingFor(s, client, vip, port);
      && Valid(s') && Keeps(s, s')
      && (key.Some? ==>
            && key.value == MappingKey(s, client, vip, port) && key.value in s'.mappings
            && (s'.mappings[key.value].destVip, s'.mappings[key.value].destPort) == (vip, port))
  {
    var key := MappingKey(s, client, vip, port);
    assert Fits(s.mapping, key);
    RawAllocFinds(s, ALLOC_ATTEMPTS);
    var (s', p) := RawAlloc(s, ALLOC_ATTEMPTS);
    assert p.Some? ==> p.value !in s.mappingByPort;
    hide RawAlloc, Taken, MappingKey, Valid, Fits;
    if key in s.mappings {
      ReuseKeeps(s, key, vip, port);
    } else if p.Some? {
      NewMappingKeeps(s, s', key, SimMapping(client, vip, port, p.value, false));
    } else {
      SearchKeeps(s, s');
    }
  }

  lemma ReuseKeeps(s: SimState, key: SimKey, vip: nat, port: int)
    requires Valid(s) && key in s.mappings
    ensures var t := s.(mappings := s.mappings[key := s.mappings[key].(destVip := vip, destPort := port)]);
      Valid(t) && Keeps(s, t)
  {
    hide Fits;
  }

  /** A search that finds nothing has only moved the generator on. */
  lemma SearchKeeps(s: SimState, s': SimState)
    requires Valid(s) && SameOptions(s, s') && s'.mappings == s.mappings && s'.mappingByPort == s.mappingByPort
    ensures Valid(s') && Keeps(s, s')
  {
    hide Fits;
  }

  lemma NewMappingKeeps(s: SimState, s': SimState, key: SimKey, m: SimMapping)
    requires Valid(s) && SameOptions(s, s') && key !in s.mappings && m.port !in s.mappingByPort && Fits(s.mapping, key)
    ensures var t := s'.(mappings := s.mappings[key := m], mappingByPort := s.mappingByPort[m.port := key]);
      Valid(t) && Keeps(s, t)
  {
    hide Fits;
  }

  /** A request keeps the table, and an answered one is answered with its mapping's port. */
  lemma HandleStunKeeps(s: SimState, r: Request)
    requires Valid(s) && !HandleStun(s, r).raised
    ensures var a := HandleStun(s, r);
      && Valid(a.state) && Keeps(s, a.state)
      && (ObserverVip(s, r.observer).Some? ==>
            && var key := MappingKey(s, r.client, ObserverVip(s, r.observer).value, r.observer);
            && key in a.state.mappings
            && (a.reply.Some? ==> a.reply.value.mapped == a.state.mappings[key].port)
            && (ChangeSource(s, r.observer, r.change).None? ==> a.reply == Some(Reply(r.observer, a.state.mappings[key].port))))
  {
    if ObserverVip(s, r.observer).Some? {
      MappingForKeeps(s, r.client, ObserverVip(s, r.observer).value, r.observer);
    }
    hide MappingFor, Valid;
  }

  /** Distinct mappings never share a port. */
  lemma DistinctPorts(s: SimState, k: SimKey, k': SimKey)
    requires Valid(s) && k in s.mappings && k' in s.mappings && k != k'
    ensures s.mappings[k].port != s.mappings[k'].port
  {
  }

  /** Asked for another address an observer's partner has another one; asked for another port only, it has the same and another port. */
  lemma ChangePartners(s: SimState, port: int)
    requires ObserverVip(s, port).Some? && s.vipSelf != VIP_C
    ensures var other, near := ChangeIpPartner(s, port), ChangePortPartner(s, port);
      && ObserverVip(s, other).Some? && ObserverVip(s, other) != ObserverVip(s, port)
      && ObserverVip(s, near) == ObserverVip(s, port) && near != port
    ensures forall change: nat :: (
      var near, other := ChangePortPartner(s, port), ChangeIpPartner(s, port);
      ChangeSource(s, port, change) == if change % 2 == 1 then Some(other) else if change % 4 == 2 then Some(near) else None)
  {
    forall change: nat ensures change % 4 == 2 <==> change % 2 == 0 && change / 2 % 2 == 1 {
      assert change == 4 * (change / 4) + change % 4;
    }
  }

  // ----- which port a mapping gets -----

  /** Draw number `i`, counting from zero. */
  ghost function DrawnAt(s: SimState, i: nat): int
    requires s.portPool > 0
  {
    if s.allocation.Random? then s.portBase + s.words(s.cursor + i) % s.portPool
    else if i == 0 then s.nextPort
    else s.portBase + (s.nextPort - s.portBase + i * s.step) % s.portPool
  }

  /** The port is not an observer's, nobody's mapping has it, and no forwarder is open on it. */
  ghost predicate FreePort(s: SimState, port: int) {
    !(s.portBase < port <= s.portBase + 5) && port !in s.mappingByPort && port !in s.forwarders
  }

  lemma NextDraws(s: SimState, i: nat)
    requires s.portPool > 0
    ensures DrawnAt(Drawn(s), i) == DrawnAt(s, i + 1)
  {
    if s.allocation.Linear? {
      var offset := s.nextPort - s.portBase + s.step;
      RemainderAbsorbs(offset, i * s.step, s.portPool);
      assert (i + 1) * s.step == i * s.step + s.step;
    }
  }

  /** The search takes the first draw that is free, and fails exactly when none of its draws is. */
  lemma {:induction false} SearchTakesFirst(s: SimState, attempts: nat)
    requires s.portPool > 0
    ensures var p := RawAlloc(s, attempts).1;
      && (p.None? <==> forall i: nat | i < attempts :: !FreePort(s, DrawnAt(s, i)))
      && (p.Some? ==> exists i: nat :: i < attempts && p.value == DrawnAt(s, i) && FreePort(s, p.value)
                                       && forall j: nat | j < i :: !FreePort(s, DrawnAt(s, j)))
    decreases attempts
  {
    assert Draw(s) == DrawnAt(s, 0);
    assert forall p :: Taken(s, p) <==> !FreePort(s, p);
    if attempts != 0 && Taken(s, Draw(s)) {
      var d := Drawn(s);
      SearchTakesFirst(d, attempts - 1);
      assert forall p :: FreePort(d, p) <==> FreePort(s, p);
      forall i: nat ensures DrawnAt(d, i) == DrawnAt(s, i + 1) { NextDraws(s, i); }
      hide FreePort, DrawnAt, Drawn, Taken;
      var p := RawAlloc(d, attempts - 1).1;
      if p.None? {
        forall i: nat | i < attempts ensures !FreePort(s, DrawnAt(s, i)) {
          if i > 0 { assert DrawnAt(d, i - 1) == DrawnAt(s, i); }
        }
      } else {
        var i: nat :| i < attempts - 1 && p.value == DrawnAt(d, i) && FreePort(d, p.value)
          && forall j: nat | j < i :: !FreePort(d, DrawnAt(d, j));
        forall j: nat | j < i + 1 ensures !FreePort(s, DrawnAt(s, j)) {
          if j > 0 { assert DrawnAt(d, j - 1) == DrawnAt(s, j); }
        }
        assert DrawnAt(s, i + 1) == p.value;
      }
    }
  }
}
