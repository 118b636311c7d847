/**
 Two runs side by side: the ports, mappings, noise and budgets of a NAT are a function of what its own clients send and
 how its binds turn out, in step mode and wherever no packet fault is drawn. Filtering, gates, reports, queues and the
 other NAT do not reach them. Where ports and packet faults are drawn from one generator, they do.
 */
module NonInterference {
  import opened PortRing
  import opened NatModel
  import opened NatWorld
  import opened WorldSafety
  import opened StunCodec
  import opened Wrappers

  ghost predicate SameWalker(a: Allocator, b: Allocator) {
    && (a.mode, a.step, a.nextPort) == (b.mode, b.step, b.nextPort)
    && (a.mode.RandomMode? ==> a.cursor == b.cursor && a.stream.words == b.stream.words)
  }

  /** No fault option is on, and so no admitted datagram makes a draw. */
  predicate NoFaults(c: Config) {
    c.lossRate <= 0.0 && !c.reorder && c.duplicateRate <= 0.0
  }

  /** Admitted datagrams take nothing from the generator that ports come from. */
  predicate Steady(n: NatState) {
    n.alloc.mode.StepMode? || NoFaults(n.cfg)
  }

  /** The options that allocation looks at. */
  ghost predicate SameAllocationOptions(c: Config, d: Config) {
    && c.observers == d.observers
    && (c.consumeBeforePunch, c.sweepEvery, c.sweepCount) == (d.consumeBeforePunch, d.sweepEvery, d.sweepCount)
  }

  /** Two mappings that agree on everything but their queue and whether they have been reported. */
  ghost predicate SameMapping(m: Mapping, m': Mapping) {
    (m.port, m.bound, m.failed) == (m'.port, m'.bound, m'.failed)
  }

  ghost predicate SameMappings(m: map<Key, Mapping>, m': map<Key, Mapping>) {
    m.Keys == m'.Keys && forall k | k in m :: SameMapping(m[k], m'[k])
  }

  /** Equal as far as allocation is concerned. */
  ghost predicate SameAllocation(n: NatState, n': NatState) {
    && SameWalker(n.alloc, n'.alloc) && SameAllocationOptions(n.cfg, n'.cfg)
    && SameMappings(n.mappings, n'.mappings)
    && n.mappingByPort == n'.mappingByPort && n.forwarders == n'.forwarders && n.noisePorts == n'.noisePorts
    && (n.initialNoiseRemaining, n.sweepNoiseRemaining) == (n'.initialNoiseRemaining, n'.sweepNoiseRemaining)
    && n.measurements == n'.measurements && n.peerMappingCounts == n'.peerMappingCounts
    && n.exhausted == n'.exhausted
  }

  lemma {:induction false} SameSearch(a: Allocator, b: Allocator, used: set<int>, fuel: nat)
    requires SameWalker(a, b)
    ensures var s, t := FindUnused(a, used, fuel), FindUnused(b, used, fuel);
      SameWalker(s.rest, t.rest) && s.Found? == t.Found? && (s.Found? ==> s.port == t.port)
    decreases fuel
  {
    if fuel != 0 && Peek(a) in used {
      SameSearch(Advance(a), Advance(b), used, fuel - 1);
    }
  }

  lemma SameAllocate(n: NatState, n': NatState)
    requires SameWalker(n.alloc, n'.alloc) && n.mappingByPort == n'.mappingByPort && n.noisePorts == n'.noisePorts
    ensures var s, t := Allocate1(n), Allocate1(n');
      SameWalker(s.rest, t.rest) && s.Found? == t.Found? && (s.Found? ==> s.port == t.port)
  {
    SameSearch(n.alloc, n'.alloc, Used(n), RING_SIZE);
    hide FindUnused;
  }

  ghost predicate SameOutcome(o: Out, o': Out) {
    SameAllocation(o.state, o'.state) && o.raised == o'.raised
  }

  lemma SameMappingFor(n: NatState, n': NatState, key: Key)
    requires SameAllocation(n, n')
    ensures SameOutcome(MappingFor(n, key), MappingFor(n', key))
  {
    SameAllocate(n, n');
    hide Allocate1, SameWalker;
  }

  function Freed(n: NatState, key: Key): NatState
    requires key in n.mappings
  {
    var m := n.mappings[key];
    if m.port in n.mappingByPort && n.mappingByPort[m.port] == key
    then n.(mappingByPort := n.mappingByPort - {m.port}) else n
  }

  lemma SameFreed(n: NatState, n': NatState, key: Key)
    requires SameAllocation(n, n') && key in n.mappings
    ensures key in n'.mappings && SameMapping(n.mappings[key], n'.mappings[key])
    ensures SameAllocation(Freed(n, key), Freed(n', key))
  {
    hide SameWalker, SameAllocationOptions;
  }

  lemma SameUpdate(n: NatState, n': NatState, key: Key, m: Mapping, m': Mapping, rest: Allocator, rest': Allocator,
                   index: map<int, Key>, out: bool)
    requires SameAllocation(n, n') && SameWalker(rest, rest') && SameMapping(m, m')
    ensures SameAllocation(n.(alloc := rest, mappings := n.mappings[key := m], mappingByPort := index, exhausted := out),
                           n'.(alloc := rest', mappings := n'.mappings[key := m'], mappingByPort := index, exhausted := out))
  {
    hide SameWalker, SameAllocationOptions;
  }

  lemma SameReassign(n: NatState, n': NatState, key: Key)
    requires SameAllocation(n, n') && key in n.mappings
    ensures SameOutcome(ReassignMappingPort(n, key), ReassignMappingPort(n', key))
  {
    SameFreed(n, n', key);
    var f, f' := Freed(n, key), Freed(n', key);
    SameAllocate(f, f');
    var m, m', found, found' := n.mappings[key], n'.mappings[key], Allocate1(f), Allocate1(f');
    assert f.mappings == n.mappings && f'.mappings == n'.mappings && f.mappingByPort == f'.mappingByPort && f.exhausted == f'.exhausted;
    hide Allocate1, SameAllocation, SameWalker;
    if found.Found? {
      SameUpdate(f, f', key, m.(port := found.port), m'.(port := found.port), found.rest, found'.rest, f.mappingByPort[found.port := key],
                 f.exhausted);
    } else {
      SameUpdate(f, f', key, m.(failed := true), m'.(failed := true), found.rest, found'.rest, f.mappingByPort, true);
    }
  }

  lemma SameBind(n: NatState, n': NatState, key: Key)
    requires SameAllocation(n, n') && key in n.mappings
    ensures SameAllocation(BindMapping(n, key), BindMapping(n', key))
  {
    assert SameMapping(n.mappings[key], n'.mappings[key]);
    hide SameWalker;
  }

  lemma SameTakeNoise(n: NatState, n': NatState)
    requires SameAllocation(n, n')
    ensures SameAllocation(TakeNoise(n), TakeNoise(n')) && Allocate1(n).Found? == Allocate1(n').Found?
  {
    SameAllocate(n, n');
    hide Allocate1, SameWalker, SameMappings, SameAllocationOptions;
  }

  lemma {:induction false} SameConsume(n: NatState, n': NatState, client: Endpoint, count: nat, stage: Stage, prior: nat)
    requires SameAllocation(n, n')
    ensures SameOutcome(ConsumeNoise(n, client, count, stage, prior), ConsumeNoise(n', client, count, stage, prior))
    decreases count
  {
    if count != 0 {
      hide SameAllocation, Allocate1;
      SameTakeNoise(n, n');
      if Allocate1(n).Found? {
        hide TakeNoise;
        SameConsume(TakeNoise(n), TakeNoise(n'), client, count - 1, stage, prior);
      }
    }
  }

  lemma SameInject(n: NatState, n': NatState, client: Endpoint)
    requires SameAllocation(n, n')
    ensures SameOutcome(InjectNoise(n, client), InjectNoise(n', client))
  {
    assert NoiseDue(n, client) == NoiseDue(n', client) by { hide SameWalker, SameMappings; }
    hide NoiseDue, ConsumeNoise, SameWalker, SameMappings, SameAllocationOptions;
    if NoiseDue(n, client).Some? {
      var (stage, noise) := NoiseDue(n, client).value;
      SameConsume(n, n', client, noise, stage, Count(n.peerMappingCounts, client));
    }
  }

  lemma SameOpenPeer(n: NatState, n': NatState, key: Key)
    requires SameAllocation(n, n')
    ensures SameOutcome(OpenPeer(n, key), OpenPeer(n', key))
  {
    SameInject(n, n', key.client);
    hide InjectNoise, SameWalker, SameMappings, SameAllocationOptions;
  }

  lemma SameEnqueue(n: NatState, n': NatState, key: Key, data: Bytes)
    requires SameAllocation(n, n') && key in n.mappings
    ensures SameAllocation(n, Enqueue(n', key, data).state)
  {
    hide SameWalker;
  }

  lemma SameTransitive(n: NatState, n': NatState, n'': NatState)
    requires SameAllocation(n, n') && SameAllocation(n', n'')
    ensures SameAllocation(n, n'')
  {
  }

  lemma SameSymmetric(n: NatState, n': NatState)
    requires SameAllocation(n, n')
    ensures SameAllocation(n', n)
  {
  }

  lemma SameMapAndQueue(n: NatState, n': NatState, key: Key, data: Bytes)
    requires SameAllocation(n, n')
    ensures SameOutcome(MapAndQueue(n, key, data), MapAndQueue(n', key, data))
  {
    hide MappingFor, Enqueue, SameAllocation;
    SameMappingFor(n, n', key);
    MappingForHolds(n, key);
    MappingForHolds(n', key);
    var m, m' := MappingFor(n, key), MappingFor(n', key);
    if !m.raised {
      SameEnqueue(m.state, m'.state, key, data) by { SameKeys(m.state, m'.state); }
      SameSymmetric(m.state, Enqueue(m'.state, key, data).state);
      SameKeys(m.state, Enqueue(m'.state, key, data).state);
      SameEnqueue(Enqueue(m'.state, key, data).state, m.state, key, data);
      SameSymmetric(Enqueue(m'.state, key, data).state, Enqueue(m.state, key, data).state);
    }
  }

  lemma SameKeys(n: NatState, n': NatState)
    requires SameAllocation(n, n')
    ensures n.mappings.Keys == n'.mappings.Keys && n.cfg.observers == n'.cfg.observers
  {
  }

  lemma SameTranslate(n: NatState, n': NatState, client: Endpoint, destination: Endpoint, data: Bytes)
    requires SameAllocation(n, n')
    ensures SameOutcome(TranslateOutbound(n, client, destination, data), TranslateOutbound(n', client, destination, data))
  {
    hide MapAndQueue, OpenPeer, SameAllocation;
    var key := Key(client, destination);
    SameKeys(n, n');
    SameOpenPeer(n, n', key);
    var start := if key in n.mappings then Out(n, [], false) else OpenPeer(n, key);
    var start' := if key in n'.mappings then Out(n', [], false) else OpenPeer(n', key);
    if !start.raised {
      SameMapAndQueue(start.state, start'.state, key, data);
    }
  }

  lemma SameMeasure(n: NatState, n': NatState, client: Endpoint)
    requires SameAllocation(n, n')
    ensures SameAllocation(CountMeasurement(n, client), CountMeasurement(n', client))
    ensures SameAllocation(RecordClient(n, client), RecordClient(n', client))
  {
    hide SameWalker, SameMappings, SameAllocationOptions;
  }

  lemma SameStun(n: NatState, n': NatState, client: Endpoint, observer: Endpoint)
    requires SameAllocation(n, n')
    ensures SameOutcome(HandleStunRequest(n, client, observer), HandleStunRequest(n', client, observer))
  {
    hide MappingFor, SameAllocation, CountMeasurement;
    SameMeasure(n, n', client);
    SameMappingFor(CountMeasurement(n, client), CountMeasurement(n', client), Key(client, observer));
  }

  lemma SameCapture(n: NatState, n': NatState, client: Endpoint, destination: Endpoint, data: Bytes)
    requires SameAllocation(n, n')
    ensures SameOutcome(CaptureEgress(n, client, destination, data), CaptureEgress(n', client, destination, data))
  {
    hide TranslateOutbound, HandleStunRequest, SameAllocation, RecordClient, ParseBindingRequest;
    SameMeasure(n, n', client);
    SameKeys(n, n');
    SameStun(RecordClient(n, client), RecordClient(n', client), client, destination);
    SameTranslate(RecordClient(n, client), RecordClient(n', client), client, destination, data);
  }

  // ----- worlds -----

  /** The events that concern the allocation of NAT `side`: its clients' datagrams and the outcome of its binds. */
  predicate Concerns(e: Event, side: Side) {
    (e.Stun? || e.Egress? || e.BindOk? || e.BindBusy?) && e.side == side
  }

  function Project(es: seq<Event>, side: Side): seq<Event>
    decreases |es|
  {
    if es == [] then []
    else (if Concerns(es[0], side) then [es[0]] else []) + Project(es[1..], side)
  }

  /** Both NATs of a world, compared with both of another. */
  ghost predicate SameSide(w: World, w': World, side: Side) {
    SameAllocation(Of(w, side), Of(w', side))
  }

  lemma SameReflexive(n: NatState)
    ensures SameAllocation(n, n)
  {
  }

  lemma ConcernedStep(w: World, v: World, e: Event, side: Side)
    requires Concerns(e, side) && SameSide(w, v, side)
    requires Enabled(w, e) && PeersKnown(w) && FlightsKnown(w) && Enabled(v, e) && PeersKnown(v) && FlightsKnown(v)
    ensures SameSide(Step(w, e), Step(v, e), side)
  {
    var n, m := Of(w, side), Of(v, side);
    match e
    case Stun(_, client, observer) =>
      SameStun(n, m, client, observer);
      hide HandleStunRequest, SameAllocation;
    case Egress(_, client, destination, data) =>
      SameCapture(n, m, client, destination, data);
      hide CaptureEgress, SameAllocation;
    case BindOk(_, key) =>
      SameBind(n, m, key);
      hide BindMapping, SameAllocation;
    case BindBusy(_, key) =>
      SameReassign(n, m, key);
      hide ReassignMappingPort, SameAllocation;
    case _ =>
  }

  lemma DeliverMovesNothing(w: World, f: Flight)
    requires PeersKnown(w) && f.key in Of(w, f.receiver).mappings
    ensures Deliver(w, f).a == w.a && Deliver(w, f).b == w.b
  {
  }

  lemma ApplyFaultsMovesNothing(w: World, f: Flight, faults: Faults)
    requires PeersKnown(w) && f.key in Of(w, f.receiver).mappings
    ensures ApplyFaults(w, f, faults).a == w.a && ApplyFaults(w, f, faults).b == w.b
  {
    var w1 := Emit(w, [DataPlane(f.receiver, Admitted)]);
    DeliverMovesNothing(w1, f);
    hide Deliver;
    if !faults.lost && !faults.late && faults.twice {
      DeliverMovesNothing(Emit(Deliver(w1, f), [DataPlane(f.receiver, Duplicated)]), f.(copy := 1));
    }
  }

  lemma PublicIsUnconcerned(w: World, side: Side, port: int, data: Bytes, source: Endpoint, via: Option<Key>, g: Gates, s: Side)
    requires PeersKnown(w) && OwnerOfClient(w, source).None? && Steady(Of(w, s))
    ensures SameSide(w, HandlePublicDatagram(w, side, port, data, source, via, g), s)
  {
    SameReflexive(Of(w, s));
    var n := Of(w, side);
    if port in n.mappingByPort && InboundAllowed(w, side, n.mappingByPort[port], source) {
      var f := Flight(side, n.mappingByPort[port], data, source, via, 0);
      var faults := DrawFaults(n);
      var w1 := MoveCursor(w, side, faults.cursor);
      assert Steady(n) ==> SameSide(w, w1, side);
      assert SameSide(w, w1, s);
      hide DrawFaults, SameAllocation, ApplyFaults;
      ApplyFaultsMovesNothing(w1, f, faults);
    }
  }

  lemma RouteIsUnconcerned(w: World, side: Side, key: Key, d: Datagram, g: Gates, s: Side)
    requires WorldInv(w) && key in Of(w, side).mappings && Of(w, side).mappings[key].reported
    requires Steady(Of(w, s))
    ensures PeersKnown(w) && SameSide(w, RouteTranslated(w, side, key, d, g), s)
  {
    WorldInvKnows(w);
    InvBound(Of(w, side));
    BoundIsNoClient(w, side, key);
    SameReflexive(Of(w, s));
    hide WorldInv, PeersKnown, SameAllocation;
    PublicIsUnconcerned(w, side.Other(), d.destination.port, d.data, MappingEndpoint(Of(w, side), key), Some(key), g, s);
    hide HandlePublicDatagram;
  }

  lemma FlushIsUnconcerned(w: World, s: Side, key: Key, g: Gates, side: Side)
    requires WorldInv(w) && Enabled(w, Flush(s, key, g)) && Steady(Of(w, side))
    ensures PeersKnown(w) && FlightsKnown(w) && SameSide(w, Step(w, Flush(s, key, g)), side)
  {
    WorldInvKnows(w);
    var w1 := With(w, s, PopPending(Of(w, s), key));
    PopIsUnconcerned(w, s, key, side);
    PopPendingKeeps(w, s, key);
    var d := Of(w, s).mappings[key].pending[0];
    assert key in Of(w1, s).mappings && Of(w1, s).mappings[key].reported;
    hide WorldInv, SameAllocation, PopPending;
    assert Steady(Of(w1, side));
    RouteIsUnconcerned(w1, s, key, d, g, side);
    hide RouteTranslated;
    assert Step(w, Flush(s, key, g)) == RouteTranslated(w1, s, key, d, g);
    hide Step;
    SameTransitive(Of(w, side), Of(w1, side), Of(RouteTranslated(w1, s, key, d, g), side));
  }

  lemma PopIsUnconcerned(w: World, s: Side, key: Key, side: Side)
    requires key in Of(w, s).mappings && |Of(w, s).mappings[key].pending| > 0 && Steady(Of(w, side))
    ensures SameSide(w, With(w, s, PopPending(Of(w, s), key)), side)
  {
    SameReflexive(Of(w, side));
  }

  lemma ReportIsUnconcerned(w: World, s: Side, key: Key, side: Side)
    requires key in Of(w, s).mappings && Steady(Of(w, side))
    ensures SameSide(w, ReportBound(w, s, key), side)
  {
    SameReflexive(Of(w, side));
    hide SameWalker, SameAllocationOptions;
  }

  lemma UnconcernedStep(w: World, e: Event, side: Side)
    requires WorldInv(w) && Enabled(w, e) && !Concerns(e, side) && Steady(Of(w, side))
    ensures PeersKnown(w) && FlightsKnown(w) && SameSide(w, Step(w, e), side)
  {
    WorldInvKnows(w);
    SameReflexive(Of(w, side));
    match e
    case Flush(s, key, g) => FlushIsUnconcerned(w, s, key, g, side);
    case Arrive(s, port, source, data, g) => PublicIsUnconcerned(w, s, port, data, source, None, g, side);
    case Land(index) =>
      hide WorldInv, SameAllocation;
      DeliverMovesNothing(w.(flights := w.flights[..index] + w.flights[index + 1..]), w.flights[index]);
    case Report(s, key) =>
      hide WorldInv, SameAllocation;
      ReportIsUnconcerned(w, s, key, side);
    case _ =>
      hide WorldInv, SameAllocation, HandleStunRequest, CaptureEgress, ReassignMappingPort, BindMapping;
  }

  /** The options and the mode stay what they are. */
  lemma StaysSteady(w: World, e: Event, side: Side)
    requires WorldInv(w) && Enabled(w, e) && Steady(Of(w, side))
    ensures PeersKnown(w) && FlightsKnown(w) && Steady(Of(Step(w, e), side))
  {
    StepContinues(w, e);
    hide WorldInv, Step;
  }

  /**
   Two runs from any two worlds whose NATs on `side` agree, with any filtering, gates, reports and peers, and in step
   mode with any faults: if that NAT met the same datagrams of its own clients and the same bind outcomes in the same
   order, it ends up with the same mappings on the same ports, the same noise and the same budgets.
   */
  lemma {:induction false} OwnIngressDecides(w: World, es: seq<Event>, w': World, v: World, fs: seq<Event>, v': World, side: Side)
    requires WorldInv(w) && Runs(w, es, w') && WorldInv(v) && Runs(v, fs, v')
    requires SameSide(w, v, side) && Project(es, side) == Project(fs, side)
    requires Steady(Of(w, side)) && Steady(Of(v, side))
    ensures SameSide(w', v', side)
    decreases |es| + |fs|
  {
    hide WorldInv, SameAllocation, Step, Steady;
    if es != [] && !Concerns(es[0], side) {
      StepKeeps(w, es[0]);
      UnconcernedStep(w, es[0], side);
      StaysSteady(w, es[0], side);
      var mid := Step(w, es[0]);
      SameSymmetric(Of(w, side), Of(mid, side));
      SameTransitive(Of(mid, side), Of(w, side), Of(v, side));
      OwnIngressDecides(mid, es[1..], w', v, fs, v', side);
    } else if fs != [] && !Concerns(fs[0], side) {
      StepKeeps(v, fs[0]);
      UnconcernedStep(v, fs[0], side);
      StaysSteady(v, fs[0], side);
      SameTransitive(Of(w, side), Of(v, side), Of(Step(v, fs[0]), side));
      OwnIngressDecides(w, es, w', Step(v, fs[0]), fs[1..], v', side);
    } else if es != [] {
      assert Project(es, side)[0] == es[0] && Project(es, side)[1..] == Project(es[1..], side);
      assert fs != [] && Project(fs, side)[0] == fs[0] && Project(fs, side)[1..] == Project(fs[1..], side);
      StepKeeps(w, es[0]);
      StepKeeps(v, fs[0]);
      ConcernedStep(w, v, es[0], side);
      StaysSteady(w, es[0], side);
      StaysSteady(v, fs[0], side);
      OwnIngressDecides(Step(w, es[0]), es[1..], w', Step(v, fs[0]), fs[1..], v', side);
    }
  }
}
