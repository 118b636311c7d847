/** What every operation of one NAT keeps: the mapping table and its index, port ownership and the budgets. */
module NatTable {
  import opened PortRing
  import opened NatModel
  import opened StunCodec
  import opened Wrappers

  /** `mappingByPort` is the inverse of the live mappings' ports, and noise ports belong to nobody. */
  ghost predicate Indexed(n: NatState) {
    && (forall p | p in n.mappingByPort ::
          n.mappingByPort[p] in n.mappings && n.mappings[n.mappingByPort[p]].port == p && !n.mappings[n.mappingByPort[p]].failed)
    && (forall k | k in n.mappings && !n.mappings[k].failed ::
          n.mappings[k].port in n.mappingByPort && n.mappingByPort[n.mappings[k].port] == k)
    && n.noisePorts !! n.mappingByPort.Keys
  }

  /** Forwarders are exactly the bound mappings' ports; a report or a failure implies the obvious. */
  ghost predicate Bound(n: NatState) {
    && (forall p | p in n.forwarders ::
          p in n.mappingByPort && n.mappingByPort[p] in n.mappings && n.mappings[n.mappingByPort[p]].bound)
    && (forall k | k in n.mappings && n.mappings[k].bound :: n.mappings[k].port in n.forwarders && !n.mappings[k].failed)
    && (forall k | k in n.mappings && n.mappings[k].reported :: n.mappings[k].bound)
  }

  /** Queued datagrams go where their mapping points, and a queue is bounded. */
  ghost predicate Queued(n: NatState) {
    forall k | k in n.mappings ::
      && |n.mappings[k].pending| <= QUEUE_CAPACITY
      && forall i | 0 <= i < |n.mappings[k].pending| :: n.mappings[k].pending[i].destination == k.destination
  }

  /** Every port in use lies on the ring; in step mode on the walk, where no rebind has ever failed. */
  ghost predicate OnPorts(n: NatState) {
    && OnRing(n.alloc.nextPort)
    && (forall p | p in Used(n) :: OnRing(p))
    && (n.alloc.mode.StepMode? ==>
          && (forall p | p in Used(n) :: OnWalk(n.alloc, p))
          && (forall k | k in n.mappings :: !n.mappings[k].failed))
  }

  ghost function PeersOf(n: NatState, client: Endpoint): set<Key> {
    set k | k in n.mappings && k.client == client && k.destination !in n.cfg.observers
  }

  /** Budgets and counters, as long as no allocation has failed. */
  ghost predicate Accounted(n: NatState) {
    !n.exhausted ==>
      && |n.noisePorts| + n.initialNoiseRemaining + n.sweepNoiseRemaining == INITIAL_NOISE_BUDGET + n.cfg.sweepLimit
      && (forall c :: Count(n.peerMappingCounts, c) == |PeersOf(n, c)|)
  }

  ghost predicate Sound(n: NatState) {
    Indexed(n) && Bound(n) && Queued(n) && OnPorts(n)
  }

  ghost predicate NatInv(n: NatState) {
    Sound(n) && Accounted(n)
  }

  ghost predicate AllocContinues(a: Allocator, b: Allocator) {
    && b.mode == a.mode && b.step == a.step && b.stream == a.stream
    && OnRing(b.nextPort) && (a.mode.StepMode? ==> OnWalk(a, b.nextPort))
  }

  /** What no operation undoes. In particular a bound mapping keeps its port for ever. */
  ghost predicate Continues(n: NatState, n': NatState) {
    && n'.cfg == n.cfg
    && AllocContinues(n.alloc, n'.alloc)
    && (forall k | k in n.mappings :: k in n'.mappings)
    && (forall k | k in n.mappings && n.mappings[k].bound ::
          n'.mappings[k].bound && n'.mappings[k].port == n.mappings[k].port)
    && (forall k | k in n.mappings && n.mappings[k].reported :: n'.mappings[k].reported)
    && n.forwarders <= n'.forwarders
    && n.noisePorts <= n'.noisePorts
    && n.clientSockets <= n'.clientSockets
    && (n.exhausted ==> n'.exhausted)
  }

  lemma AllocContinuesTransitive(a: Allocator, b: Allocator, c: Allocator)
    requires AllocContinues(a, b) && AllocContinues(b, c)
    ensures AllocContinues(a, c)
  {
    if a.mode.StepMode? {
      SameWalk(a, b.nextPort, c.nextPort);
      assert a.(nextPort := b.nextPort).nextPort == b.nextPort;
      assert OnWalk(b, c.nextPort);
    }
  }

  lemma ContinuesTransitive(n: NatState, n': NatState, n'': NatState)
    requires Continues(n, n') && Continues(n', n'')
    ensures Continues(n, n'')
  {
    AllocContinuesTransitive(n.alloc, n'.alloc, n''.alloc);
  }

  lemma ContinuesReflexive(n: NatState)
    requires Sound(n)
    ensures Continues(n, n)
  {
  }

  lemma {:induction false} AdvanceByContinues(a: Allocator, i: nat)
    requires OnRing(a.nextPort)
    ensures AllocContinues(a, AdvanceBy(a, i))
    decreases i
  {
    if i != 0 {
      if a.mode.StepMode? {
        AdvanceByKeeps(a, i);
        DrawIsOnWalk(a, i);
      } else {
        AdvanceByContinues(Advance(a), i - 1);
      }
    }
  }

  /** What a search leaves behind, and what it finds. */
  lemma SearchEffect(a: Allocator, used: set<int>)
    requires OnRing(a.nextPort)
    ensures AllocContinues(a, Allocate(a, used).rest)
    ensures Allocate(a, used).Found? ==>
      && OnRing(Allocate(a, used).port) && Allocate(a, used).port !in used
      && (a.mode.StepMode? ==> OnWalk(a, Allocate(a, used).port))
  {
    FindUnusedIsFirst(a, used, RING_SIZE);
    if Allocate(a, used).Found? {
      var i :| 0 <= i < RING_SIZE && FindUnused(a, used, RING_SIZE) == Found(DrawAt(a, i), AdvanceBy(a, i + 1))
        && DrawAt(a, i) !in used;
      AdvanceByContinues(a, i + 1);
      AdvanceByContinues(a, i);
      if a.mode.StepMode? { DrawIsOnWalk(a, i); }
    } else {
      ExhaustedRest(a, used, RING_SIZE);
      AdvanceByContinues(a, RING_SIZE);
    }
  }

  lemma {:induction false} ExhaustedRest(a: Allocator, used: set<int>, fuel: nat)
    requires FindUnused(a, used, fuel).Exhausted?
    ensures FindUnused(a, used, fuel).rest == AdvanceBy(a, fuel)
    decreases fuel
  {
    if fuel != 0 {
      ExhaustedRest(Advance(a), used, fuel - 1);
    }
  }

  /** The walk does not depend on how far along it the allocator is. */
  lemma SameWalkAll(a: Allocator, b: Allocator)
    requires AllocContinues(a, b) && a.mode.StepMode?
    ensures forall p :: OnWalk(a, p) <==> OnWalk(b, p)
  {
    forall p ensures OnWalk(a, p) <==> OnWalk(b, p) {
      SameWalk(a, b.nextPort, p);
    }
  }

  /** A key that takes a port nobody uses, giving up the one it held. */
  lemma TakePortKeepsTable(n: NatState, key: Key, m: Mapping, n': NatState)
    requires Indexed(n) && Bound(n) && Queued(n)
    requires m.port !in n.noisePorts && !m.failed && !m.bound && !m.reported
    requires key !in n.mappings ==> m.pending == [] && n'.mappingByPort == n.mappingByPort[m.port := key] && m.port !in n.mappingByPort
    requires key in n.mappings ==>
      && m == n.mappings[key].(port := m.port)
      && n'.mappingByPort == (n.mappingByPort - {n.mappings[key].port})[m.port := key]
      && m.port !in n.mappingByPort.Keys - {n.mappings[key].port}
    requires n'.mappings == n.mappings[key := m]
    requires n'.noisePorts == n.noisePorts && n'.forwarders == n.forwarders
    ensures Indexed(n') && Bound(n') && Queued(n')
  {
  }

  lemma TakePortKeepsPorts(n: NatState, n': NatState, port: int)
    requires OnPorts(n) && AllocContinues(n.alloc, n'.alloc)
    requires Used(n') <= Used(n) + {port} && OnRing(port)
    requires n.alloc.mode.StepMode? ==> OnWalk(n.alloc, port) && forall k | k in n'.mappings :: !n'.mappings[k].failed
    ensures OnPorts(n')
  {
    if n.alloc.mode.StepMode? { SameWalkAll(n.alloc, n'.alloc); }
  }

  lemma SamePeersKeepAccount(n: NatState, n': NatState)
    requires Accounted(n) && n'.cfg == n.cfg && (n.exhausted ==> n'.exhausted)
    requires n'.noisePorts == n.noisePorts && n'.initialNoiseRemaining == n.initialNoiseRemaining
    requires n'.sweepNoiseRemaining == n.sweepNoiseRemaining && n'.peerMappingCounts == n.peerMappingCounts
    requires forall k | k in n.mappings.Keys + n'.mappings.Keys :: (k in n.mappings && k in n'.mappings) || k.destination in n.cfg.observers
    ensures Accounted(n')
  {
    forall c ensures PeersOf(n', c) == PeersOf(n, c) {
    }
  }

  lemma ExhaustKeeps(n: NatState)
    requires Sound(n) && Allocate1(n).Exhausted?
    ensures Sound(Exhaust(n)) && Continues(n, Exhaust(n))
  {
    SearchEffect(n.alloc, Used(n));
    if n.alloc.mode.StepMode? { SameWalkAll(n.alloc, Allocate1(n).rest); }
  }

  lemma MappingForFound(n: NatState, key: Key)
    requires Sound(n)
    requires key !in n.mappings && Allocate1(n).Found?
    ensures var o := MappingFor(n, key);
      Sound(o.state) && Continues(n, o.state)
  {
    var o := MappingFor(n, key);
    assert OnRing(n.alloc.nextPort);
    SearchEffect(n.alloc, Used(n));
    assert Continues(n, o.state);
    hide FindUnused, AllocContinues, Continues;
    TakePortKeepsPorts(n, o.state, Allocate1(n).port) by {
      hide Indexed, Bound, Queued;
    }
    hide OnPorts;
    TakePortKeepsTable(n, key, o.state.mappings[key], o.state);
  }

  /** In step mode a rebind always finds a port: at worst the one it has just given back. */
  lemma StepRebindNeverExhausts(n: NatState, key: Key)
    requires Sound(n) && n.alloc.mode.StepMode? && key in n.mappings
    ensures !ReassignMappingPort(n, key).raised
  {
    var m := n.mappings[key];
    var freed := n.(mappingByPort := n.mappingByPort - {m.port});
    assert OnWalk(n.alloc, m.port) && m.port !in Used(freed);
    StepAllocationComplete(n.alloc, Used(freed));
  }

  lemma ReassignKeeps(n: NatState, key: Key)
    requires NatInv(n) && key in n.mappings && !n.mappings[key].bound && !n.mappings[key].failed
    ensures NatInv(ReassignMappingPort(n, key).state) && Continues(n, ReassignMappingPort(n, key).state)
  {
    if ReassignMappingPort(n, key).raised {
      ReassignFailed(n, key);
    } else {
      ReassignFound(n, key);
    }
    hide Sound, Continues;
    SamePeersKeepAccount(n, ReassignMappingPort(n, key).state);
  }

  lemma ReassignFailed(n: NatState, key: Key)
    requires Sound(n) && key in n.mappings && !n.mappings[key].bound && !n.mappings[key].failed
    requires ReassignMappingPort(n, key).raised
    ensures Sound(ReassignMappingPort(n, key).state) && Continues(n, ReassignMappingPort(n, key).state)
  {
    if n.alloc.mode.StepMode? { StepRebindNeverExhausts(n, key); }
    var freed := n.(mappingByPort := n.mappingByPort - {n.mappings[key].port});
    SearchEffect(n.alloc, Used(freed));
    assert n.mappings[key].port in n.mappingByPort && n.mappingByPort[n.mappings[key].port] == key;
    hide FindUnused, Sound, Continues, AllocContinues;
    FailedKeeps(n, key, Allocate1(freed).rest, ReassignMappingPort(n, key).state);
  }

  lemma FailedKeeps(n: NatState, key: Key, rest: Allocator, n': NatState)
    requires Sound(n) && key in n.mappings && !n.mappings[key].bound && !n.mappings[key].failed
    requires n.alloc.mode.RandomMode? && AllocContinues(n.alloc, rest)
    requires n' == n.(alloc := rest, exhausted := true, mappingByPort := n.mappingByPort - {n.mappings[key].port},
                      mappings := n.mappings[key := n.mappings[key].(failed := true)])
    ensures Sound(n') && Continues(n, n')
  {
    var m := n.mappings[key];
    assert m.port in n.mappingByPort && n.mappingByPort[m.port] == key && !m.reported;
  }

  lemma ReassignFound(n: NatState, key: Key)
    requires Sound(n)
    requires key in n.mappings && !n.mappings[key].bound && !n.mappings[key].failed
    requires !ReassignMappingPort(n, key).raised
    ensures var o := ReassignMappingPort(n, key);
      Sound(o.state) && Continues(n, o.state)
  {
    var m, o := n.mappings[key], ReassignMappingPort(n, key);
    assert m.port in n.mappingByPort && n.mappingByPort[m.port] == key && !m.reported;
    var freed := n.(mappingByPort := n.mappingByPort - {m.port});
    SearchEffect(n.alloc, Used(freed)) by { assert OnRing(n.alloc.nextPort); }
    assert Continues(n, o.state);
    hide FindUnused, AllocContinues, Continues;
    TakePortKeepsPorts(n, o.state, Allocate1(freed).port) by {
      hide Indexed, Bound, Queued;
    }
    hide OnPorts;
    TakePortKeepsTable(n, key, o.state.mappings[key], o.state);
  }

  lemma BindKeeps(n: NatState, key: Key)
    requires NatInv(n) && key in n.mappings && !n.mappings[key].bound && !n.mappings[key].failed
    ensures NatInv(BindMapping(n, key)) && Continues(n, BindMapping(n, key))
    ensures n.mappings[key].port !in n.forwarders
  {
    SamePeersKeepAccount(n, BindMapping(n, key));
  }

  lemma ConsumeNoiseMoves(n: NatState, client: Endpoint, count: nat, stage: Stage, prior: nat)
    ensures ConsumeNoise(n, client, count, stage, prior).state ==
      if count == 0 then n
      else if Allocate1(n).Exhausted? then TakeNoise(n)
      else ConsumeNoise(TakeNoise(n), client, count - 1, stage, prior).state
  {
    hide TakeNoise, Allocate1;
  }

  lemma {:induction false} ConsumeNoiseKeeps(n: NatState, client: Endpoint, count: nat, stage: Stage, prior: nat)
    requires Sound(n)
    ensures var n' := ConsumeNoise(n, client, count, stage, prior).state; Sound(n') && Continues(n, n')
    decreases count
  {
    hide *;
    ConsumeNoiseMoves(n, client, count, stage, prior);
    if count == 0 {
      ContinuesReflexive(n);
    } else {
      TakeNoiseKeeps(n);
      if Allocate1(n).Found? {
        var n' := TakeNoise(n);
        ConsumeNoiseKeeps(n', client, count - 1, stage, prior);
        ContinuesTransitive(n, n', ConsumeNoise(n', client, count - 1, stage, prior).state);
      }
    }
  }

  /** Noise touches nothing but the allocator and its own ports, and takes as many as it was asked for. */
  lemma {:induction false} ConsumeNoiseTakes(n: NatState, client: Endpoint, count: nat, stage: Stage, prior: nat)
    requires Sound(n)
    ensures var o := ConsumeNoise(n, client, count, stage, prior);
      && o.state == n.(alloc := o.state.alloc, noisePorts := o.state.noisePorts, exhausted := n.exhausted || o.raised)
      && (!o.raised ==> |o.state.noisePorts| == |n.noisePorts| + count)
    decreases count
  {
    if count != 0 {
      hide Sound, FindUnused;
      TakeNoiseKeeps(n);
      var n' := TakeNoise(n);
      if Allocate1(n).Found? {
        NoisePortIsNew(n);
        assert |n'.noisePorts| == |n.noisePorts| + 1;
        hide Continues;
        ConsumeNoiseTakes(n', client, count - 1, stage, prior);
      }
    }
  }

  lemma NoisePortIsNew(n: NatState)
    requires Sound(n) && Allocate1(n).Found?
    ensures Allocate1(n).port !in n.noisePorts
  {
    SearchEffect(n.alloc, Used(n));
  }

  lemma TakeNoiseKeeps(n: NatState)
    requires Sound(n)
    ensures Sound(TakeNoise(n)) && Continues(n, TakeNoise(n))
  {
    TakeNoiseContinues(n);
    TakeNoiseOnPorts(n);
    hide OnPorts, Continues;
    TakeNoiseTable(n);
    hide Indexed, Bound, Queued;
  }

  lemma TakeNoiseTable(n: NatState)
    requires Sound(n)
    ensures Indexed(TakeNoise(n)) && Bound(TakeNoise(n)) && Queued(TakeNoise(n))
  {
    var n' := TakeNoise(n);
    assert n'.mappings == n.mappings && n'.mappingByPort == n.mappingByPort && n'.forwarders == n.forwarders;
    SearchEffect(n.alloc, Used(n));
    assert n'.noisePorts !! n'.mappingByPort.Keys by { hide FindUnused, OnPorts, AllocContinues, Bound, Queued; }
    hide TakeNoise, OnPorts, AllocContinues, FindUnused;
  }

  lemma TakeNoiseContinues(n: NatState)
    requires OnPorts(n)
    ensures Continues(n, TakeNoise(n))
  {
    SearchEffect(n.alloc, Used(n));
    hide FindUnused, OnPorts, AllocContinues;
  }

  lemma TakeNoiseOnPorts(n: NatState)
    requires OnPorts(n)
    ensures OnPorts(TakeNoise(n))
  {
    var s := Allocate1(n);
    SearchEffect(n.alloc, Used(n));
    hide FindUnused;
    TakePortKeepsPorts(n, TakeNoise(n), if s.Found? then s.port else n.alloc.nextPort);
  }

  /** Counters, budgets and remembered clients are not part of the table. */
  ghost predicate SameTable(n: NatState, n': NatState) {
    && n'.cfg == n.cfg && n'.alloc == n.alloc && n'.mappings == n.mappings && n'.mappingByPort == n.mappingByPort
    && n'.forwarders == n.forwarders && n'.noisePorts == n.noisePorts && n'.exhausted == n.exhausted
    && n.clientSockets <= n'.clientSockets
  }

  lemma SameTableIsSound(n: NatState, n': NatState)
    requires Sound(n) && SameTable(n, n')
    ensures Sound(n')
  {
  }

  lemma SameTableContinues(n: NatState, mid: NatState, n': NatState)
    requires Continues(n, mid) && SameTable(mid, n')
    ensures Continues(n, n')
  {
  }

  ghost predicate Budgeted(n: NatState) {
    |n.noisePorts| + n.initialNoiseRemaining + n.sweepNoiseRemaining == INITIAL_NOISE_BUDGET + n.cfg.sweepLimit
  }

  lemma InjectNoiseKeeps(n: NatState, client: Endpoint)
    requires Sound(n)
    ensures Sound(InjectNoise(n, client).state) && Continues(n, InjectNoise(n, client).state)
  {
    hide Sound, Continues;
    match NoiseDue(n, client)
    case None =>
      ContinuesReflexive(n);
    case Some((stage, noise)) =>
      var prior := Count(n.peerMappingCounts, client);
      var o := ConsumeNoise(n, client, noise, stage, prior);
      ConsumeNoiseKeeps(n, client, noise, stage, prior);
      hide ConsumeNoise;
      SameTableIsSound(o.state, InjectNoise(n, client).state);
      SameTableContinues(n, o.state, InjectNoise(n, client).state);
  }

  lemma InjectNoisePays(n: NatState, client: Endpoint)
    requires Sound(n)
    ensures var o := InjectNoise(n, client);
      && o.state == n.(alloc := o.state.alloc, noisePorts := o.state.noisePorts, exhausted := n.exhausted || o.raised,
                       initialNoiseRemaining := o.state.initialNoiseRemaining,
                       sweepNoiseRemaining := o.state.sweepNoiseRemaining)
      && (!o.raised && Budgeted(n) ==> Budgeted(o.state))
  {
    hide Sound;
    match NoiseDue(n, client)
    case None =>
    case Some((stage, noise)) =>
      ConsumeNoiseTakes(n, client, noise, stage, Count(n.peerMappingCounts, client));
      hide ConsumeNoise;
  }

  /** The table between counting a new peer mapping and creating it. */
  ghost predicate OneAhead(n: NatState, key: Key) {
    !n.exhausted ==>
      && Budgeted(n)
      && (forall c :: Count(n.peerMappingCounts, c) == |PeersOf(n, c)| + if c == key.client then 1 else 0)
  }

  lemma OpenPeerKeeps(n: NatState, key: Key)
    requires Sound(n)
    ensures Sound(OpenPeer(n, key).state) && Continues(n, OpenPeer(n, key).state)
  {
    hide Sound, Continues;
    InjectNoiseKeeps(n, key.client);
    var noisy, o := InjectNoise(n, key.client), OpenPeer(n, key);
    hide InjectNoise;
    SameTableIsSound(noisy.state, o.state);
    SameTableContinues(n, noisy.state, o.state);
  }

  lemma OpenPeerCounts(n: NatState, key: Key)
    requires NatInv(n)
    ensures var o := OpenPeer(n, key); o.state.mappings == n.mappings && if o.raised then o.state.exhausted else OneAhead(o.state, key)
  {
    InjectNoisePays(n, key.client);
    var o := OpenPeer(n, key);
    hide InjectNoise, Sound;
    forall c ensures PeersOf(o.state, c) == PeersOf(n, c) {
    }
  }

  lemma PeersGrow(n: NatState, n': NatState, key: Key, m: Mapping, c: Endpoint)
    requires key !in n.mappings && key.destination !in n.cfg.observers
    requires n'.cfg == n.cfg && n'.mappings == n.mappings[key := m]
    ensures |PeersOf(n', c)| == |PeersOf(n, c)| + if c == key.client then 1 else 0
  {
    assert PeersOf(n', c) == if c == key.client then PeersOf(n, c) + {key} else PeersOf(n, c);
    assert key !in PeersOf(n, c);
  }

  lemma NewPeerIsAccounted(n: NatState, key: Key)
    requires OneAhead(n, key) && key !in n.mappings && key.destination !in n.cfg.observers
    ensures Accounted(MappingFor(n, key).state)
  {
    hide Allocate1, PeersOf;
    var n' := MappingFor(n, key).state;
    if !n'.exhausted {
      forall c ensures Count(n'.peerMappingCounts, c) == |PeersOf(n', c)| {
        PeersGrow(n, n', key, n'.mappings[key], c);
      }
    }
  }

  /** A change of one mapping's queue and nothing else. */
  ghost predicate OnlyQueueChanges(n: NatState, n': NatState, key: Key) {
    && key in n.mappings && key in n'.mappings
    && n' == n.(mappings := n.mappings[key := n.mappings[key].(pending := n'.mappings[key].pending)])
    && |n'.mappings[key].pending| <= QUEUE_CAPACITY
    && forall i | 0 <= i < |n'.mappings[key].pending| :: n'.mappings[key].pending[i].destination == key.destination
  }

  lemma QueueChangeIsSound(n: NatState, n': NatState, key: Key)
    requires Sound(n) && OnlyQueueChanges(n, n', key)
    ensures Indexed(n') && Bound(n') && Queued(n')
  {
    hide OnPorts;
  }

  lemma QueueChangeKeeps(n: NatState, n': NatState, key: Key)
    requires NatInv(n) && OnlyQueueChanges(n, n', key)
    ensures NatInv(n') && Continues(n, n')
  {
    QueueChangeIsSound(n, n', key);
    SamePeersKeepAccount(n, n') by { hide Sound, Indexed, Bound, Queued; }
    hide Indexed, Bound, Queued, Accounted;
  }

  lemma EnqueueKeeps(n: NatState, key: Key, data: Bytes)
    requires NatInv(n) && key in n.mappings
    ensures NatInv(Enqueue(n, key, data).state) && Continues(n, Enqueue(n, key, data).state)
  {
    assert OnlyQueueChanges(n, Enqueue(n, key, data).state, key) by {
      assert n.mappings[key := n.mappings[key]] == n.mappings;
    }
    hide NatInv, Continues;
    QueueChangeKeeps(n, Enqueue(n, key, data).state, key);
  }

  lemma MappingForSound(n: NatState, key: Key)
    requires Sound(n)
    ensures Sound(MappingFor(n, key).state) && Continues(n, MappingFor(n, key).state)
  {
    if key in n.mappings {
      ContinuesReflexive(n);
      hide *;
    } else if Allocate1(n).Exhausted? {
      ExhaustKeeps(n);
      hide Sound, Continues, Allocate1;
    } else {
      MappingForFound(n, key);
      hide *;
    }
  }

  lemma MapAndQueueKeeps(n: NatState, key: Key, data: Bytes)
    requires Sound(n) && Accounted(MappingFor(n, key).state)
    ensures var o := MapAndQueue(n, key, data); NatInv(o.state) && Continues(n, o.state)
  {
    hide Sound, Continues, Accounted;
    MappingForSound(n, key);
    var mapped := MappingFor(n, key);
    if !mapped.raised {
      hide Allocate1;
      EnqueueKeeps(mapped.state, key, data);
      ContinuesTransitive(n, mapped.state, Enqueue(mapped.state, key, data).state);
      hide Enqueue;
    }
  }

  lemma TranslateOutboundKeeps(n: NatState, client: Endpoint, destination: Endpoint, data: Bytes)
    requires NatInv(n) && destination !in n.cfg.observers
    ensures var o := TranslateOutbound(n, client, destination, data); NatInv(o.state) && Continues(n, o.state)
  {
    var key := Key(client, destination);
    if key in n.mappings {
      MapAndQueueKeeps(n, key, data);
      hide Sound, Accounted, Continues, MapAndQueue;
    } else {
      OpenPeerKeeps(n, key);
      OpenPeerCounts(n, key);
      var start := OpenPeer(n, key);
      hide Sound, OpenPeer, PeersOf, Continues;
      if !start.raised {
        NewPeerIsAccounted(start.state, key);
        hide Accounted, MapAndQueue;
        MapAndQueueKeeps(start.state, key, data);
        ContinuesTransitive(n, start.state, MapAndQueue(start.state, key, data).state);
      }
    }
  }

  lemma RecordClientKeeps(n: NatState, client: Endpoint)
    requires NatInv(n)
    ensures NatInv(RecordClient(n, client)) && Continues(n, RecordClient(n, client))
  {
    ContinuesReflexive(n);
    SameTableIsSound(n, RecordClient(n, client));
    SamePeersKeepAccount(n, RecordClient(n, client));
    hide Sound, Accounted;
  }

  lemma CountMeasurementKeeps(n: NatState, client: Endpoint)
    requires NatInv(n)
    ensures NatInv(CountMeasurement(n, client)) && Continues(n, CountMeasurement(n, client))
  {
    ContinuesReflexive(n);
    SameTableIsSound(n, CountMeasurement(n, client));
    SamePeersKeepAccount(n, CountMeasurement(n, client));
    hide Sound, Accounted;
  }

  lemma ObserverMappingPeers(n: NatState, key: Key)
    requires key.destination in n.cfg.observers
    ensures var n' := MappingFor(n, key).state;
      && n'.cfg == n.cfg && (n.exhausted ==> n'.exhausted)
      && n'.noisePorts == n.noisePorts && n'.initialNoiseRemaining == n.initialNoiseRemaining
      && n'.sweepNoiseRemaining == n.sweepNoiseRemaining && n'.peerMappingCounts == n.peerMappingCounts
      && forall k | k in n.mappings.Keys + n'.mappings.Keys :: (k in n.mappings && k in n'.mappings) || k.destination in n.cfg.observers
  {
    hide Allocate1;
  }

  lemma ObserverMappingKeeps(n: NatState, key: Key)
    requires NatInv(n) && key.destination in n.cfg.observers
    ensures NatInv(MappingFor(n, key).state) && Continues(n, MappingFor(n, key).state)
  {
    MappingForSound(n, key);
    hide Sound, Continues, Accounted, MappingFor;
    ObserverMappingPeers(n, key);
    SamePeersKeepAccount(n, MappingFor(n, key).state);
  }

  lemma HandleStunRequestKeeps(n: NatState, client: Endpoint, observer: Endpoint)
    requires NatInv(n) && observer in n.cfg.observers
    ensures var o := HandleStunRequest(n, client, observer); NatInv(o.state) && Continues(n, o.state)
  {
    CountMeasurementKeeps(n, client);
    hide NatInv, Continues;
    var mid := CountMeasurement(n, client);
    ObserverMappingKeeps(mid, Key(client, observer));
    ContinuesTransitive(n, mid, MappingFor(mid, Key(client, observer)).state);
    hide MappingFor;
  }

  /** Whatever arrives at the egress gateway, the NAT's invariant survives it. */
  lemma CaptureEgressKeeps(n: NatState, client: Endpoint, destination: Endpoint, data: Bytes)
    requires NatInv(n)
    ensures var o := CaptureEgress(n, client, destination, data); NatInv(o.state) && Continues(n, o.state)
  {
    RecordClientKeeps(n, client);
    hide NatInv, Continues, ParseBindingRequest;
    var mid := RecordClient(n, client);
    if destination in n.cfg.observers {
      HandleStunRequestKeeps(mid, client, destination);
      ContinuesTransitive(n, mid, HandleStunRequest(mid, client, destination).state);
      hide HandleStunRequest;
    } else {
      TranslateOutboundKeeps(mid, client, destination, data);
      ContinuesTransitive(n, mid, TranslateOutbound(mid, client, destination, data).state);
      hide TranslateOutbound;
    }
  }
}
