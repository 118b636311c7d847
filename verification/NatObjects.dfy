/** The simulator's objects: fields updated in place by loops, each method tied to the function it carries out. */
module NatObjects {
  import opened Arithmetic
  import opened PortRing
  import opened NatModel
  import opened NatWorld
  import opened EvidenceAgreement
  import opened StunCodec
  import opened Wrappers

  lemma PreviewUnrolls(a: Allocator, reserved: set<int>, count: nat, fuel: nat)
    requires count > 0 && fuel > 0
    ensures Preview(a, reserved, count, fuel) ==
      if Peek(a) in reserved then Preview(Advance(a), reserved, count, fuel - 1)
      else [Peek(a)] + Preview(Advance(a), reserved + {Peek(a)}, count - 1, fuel - 1)
  {
  }

  lemma PreviewEnds(a: Allocator, reserved: set<int>, count: nat, fuel: nat)
    requires count == 0 || fuel == 0
    ensures Preview(a, reserved, count, fuel) == []
  {
  }

  lemma NothingConsumed(n: NatState, client: Endpoint, stage: Stage, prior: nat)
    ensures ConsumeNoise(n, client, 0, stage, prior) == Out(n, [], false)
  {
  }

  lemma ConsumeUnrolls(n: NatState, client: Endpoint, count: nat, stage: Stage, prior: nat)
    requires count > 0
    ensures var o := ConsumeNoise(n, client, count, stage, prior);
      match Allocate1(n)
      case Exhausted(_) => o == Out(TakeNoise(n), [], true)
      case Found(port, _) =>
        var tail := ConsumeNoise(TakeNoise(n), client, count - 1, stage, prior);
        var row := MappingConsumed(n.cfg.side, client, stage, PublicEndpoint(n, port), Count(n.measurements, client), prior);
        o == Out(tail.state, [row] + tail.rows, tail.raised)
  {
  }

  lemma ConsumeKeepsCounters(n: NatState, client: Endpoint, prior: nat)
    ensures forall count: nat, stage ::
      var o := ConsumeNoise(n, client, count, stage, prior).state;
      (o.initialNoiseRemaining, o.sweepNoiseRemaining) == (n.initialNoiseRemaining, n.sweepNoiseRemaining)
      && (o.measurements, o.peerMappingCounts) == (n.measurements, n.peerMappingCounts)
  {
    forall count: nat, stage
      ensures var o := ConsumeNoise(n, client, count, stage, prior).state;
        (o.initialNoiseRemaining, o.sweepNoiseRemaining) == (n.initialNoiseRemaining, n.sweepNoiseRemaining)
        && (o.measurements, o.peerMappingCounts) == (n.measurements, n.peerMappingCounts)
    {
      ConsumeNoiseBudgets(n, client, count, stage, prior);
    }
  }

  class NatTrace {
    var rows: seq<Row>

    constructor ()
      ensures rows == []
    {
      rows := [];
    }

    method Record(row: Row)
      modifies this
      ensures rows == old(rows) + [row]
    {
      rows := rows + [row];
    }
  }

  class Nat {
    const cfg: Config
    const mode: Mode
    const step: int
    const stream: Stream
    const trace: NatTrace
    var nextPort: int
    var cursor: nat
    var mappings: map<Key, Mapping>
    var mappingByPort: map<int, Key>
    var forwarders: set<int>
    var noisePorts: set<int>
    var initialNoiseRemaining: nat
    var sweepNoiseRemaining: nat
    var measurements: map<Endpoint, nat>
    var peerMappingCounts: map<Endpoint, nat>
    var clientSockets: set<Endpoint>
    ghost var exhausted: bool

    ghost function Alloc(): Allocator
      reads this
    {
      Allocator(mode, step, stream, nextPort, cursor)
    }

    ghost function State(): NatState
      reads this
    {
      NatState(cfg, Alloc(), mappings, mappingByPort, forwarders, noisePorts, initialNoiseRemaining,
               sweepNoiseRemaining, measurements, peerMappingCounts, clientSockets, exhausted)
    }

    /** The outcome of a method: its new state, what it appended to the trace and whether it raised. */
    twostate predicate Did(o: Out, raised: bool)
      reads this, trace
    {
      State() == o.state && trace.rows == old(trace.rows) + o.rows && raised == o.raised
    }

    constructor (cfg: Config, alloc: Allocator, trace: NatTrace)
      requires ValidOptions(cfg, alloc)
      ensures State() == NewNat(cfg, alloc) && this.trace == trace
    {
      this.cfg, this.trace := cfg, trace;
      mode, step, stream := alloc.mode, alloc.step, alloc.stream;
      nextPort, cursor := alloc.nextPort, alloc.cursor;
      mappings, mappingByPort, forwarders, noisePorts := map[], map[], {}, {};
      initialNoiseRemaining, sweepNoiseRemaining := INITIAL_NOISE_BUDGET, cfg.sweepLimit;
      measurements, peerMappingCounts, clientSockets := map[], map[], {};
      exhausted := false;
    }

    /** The constructor behind its checks: it refuses exactly the options that are not valid. */
    static method Create(cfg: Config, alloc: Allocator, trace: NatTrace) returns (made: Option<Nat>)
      ensures made.Some? <==> ValidOptions(cfg, alloc)
      ensures made.Some? ==> fresh(made.value) && made.value.State() == NewNat(cfg, alloc) && made.value.trace == trace
    {
      if !ValidOptions(cfg, alloc) {
        return None;
      }
      var n := new Nat(cfg, alloc, trace);
      return Some(n);
    }

    method AllocPort() returns (port: int)
      modifies `nextPort, `cursor
      ensures port == Peek(old(Alloc())) && Alloc() == Advance(old(Alloc()))
    {
      if mode.RandomMode? {
        port := RandRange(stream.words(cursor));
        cursor := cursor + 1;
      } else {
        port := nextPort;
        nextPort := FIRST_PORT + (port - FIRST_PORT + step) % RING_SIZE;
      }
    }

    /** `None` stands for the exception of a pool with no unused port left. */
    method AllocateUnusedPort() returns (port: Option<int>)
      modifies `nextPort, `cursor, `exhausted
      ensures match Allocate1(old(State()))
        case Found(p, rest) => port == Some(p) && State() == old(State()).(alloc := rest)
        case Exhausted(rest) => port == None && State() == Exhaust(old(State()))
    {
      ghost var used := Used(State());
      var i := 0;
      while i < RING_SIZE
        invariant 0 <= i <= RING_SIZE
        invariant exhausted == old(exhausted)
        invariant FindUnused(Alloc(), used, RING_SIZE - i) == Allocate1(old(State()))
        invariant Alloc() == old(Alloc()).(nextPort := nextPort, cursor := cursor)
      {
        var candidate := AllocPort();
        if candidate !in mappingByPort && candidate !in noisePorts {
          return Some(candidate);
        }
        i := i + 1;
      }
      exhausted := true;
      return None;
    }

    /** The look-ahead loop, run on a copy of the generator and of the next port. */
    method LookAhead(count: nat) returns (ports: seq<int>)
      requires count > 0
      ensures ports == Preview(Alloc(), Used(State()), count, RING_SIZE)
    {
      hide Preview;
      ghost var all := Preview(Alloc(), Used(State()), count, RING_SIZE);
      var copy := Allocator(mode, step, stream, nextPort, cursor);
      var reserved := mappingByPort.Keys + noisePorts;
      ports := [];
      var left := RING_SIZE;
      while left > 0
        invariant 0 <= left && |ports| < count
        invariant ports + Preview(copy, reserved, count - |ports|, left) == all
      {
        var port := Peek(copy);
        PreviewUnrolls(copy, reserved, count - |ports|, left);
        copy, left := Advance(copy), left - 1;
        if port !in reserved {
          ports, reserved := ports + [port], reserved + {port};
          if |ports| == count {
            PreviewEnds(copy, reserved, 0, left);
            return;
          }
        }
      }
      PreviewEnds(copy, reserved, count - |ports|, 0);
    }

    /** The look-ahead announces a prefix of what the allocator will hand out, all of it in step mode, and changes nothing. */
    method PreviewUnusedPorts(count: int) returns (ports: seq<int>)
      ensures count <= 0 ==> ports == []
      ensures count > 0 ==> ports <= Future(Alloc(), Used(State()), count)
      ensures count > 0 && mode.StepMode? && OnRing(nextPort) ==> ports == Future(Alloc(), Used(State()), count)
    {
      if count <= 0 {
        return [];
      }
      ports := LookAhead(count);
      hide Preview, FutureFrom;
      PreviewIsPrefixOfFuture(Alloc(), Used(State()), count, RING_SIZE, RING_SIZE);
      if mode.StepMode? && OnRing(nextPort) {
        StepPreviewIsFuture(Alloc(), Used(State()), count);
      }
    }

    method RecordClientSocket(client: Endpoint)
      modifies `clientSockets
      ensures State() == RecordClient(old(State()), client)
    {
      clientSockets := clientSockets + {client};
    }

    method GetMapping(key: Key) returns (raised: bool)
      modifies this, trace
      ensures Did(MappingFor(old(State()), key), raised)
      ensures !raised ==> key in mappings
    {
      if key in mappings {
        return false;
      }
      var port := AllocateUnusedPort();
      if port.None? {
        return true;
      }
      mappings := mappings[key := Mapping(port.value, false, false, false, [])];
      mappingByPort := mappingByPort[port.value := key];
      trace.Record(MappingCreated(cfg.side, key, Endpoint(cfg.publicIp, port.value)));
      return false;
    }

    method Reassign(key: Key) returns (raised: bool)
      requires key in mappings
      modifies this
      ensures Did(ReassignMappingPort(old(State()), key), raised)
    {
      var previous := mappings[key].port;
      if previous in mappingByPort && mappingByPort[previous] == key {
        mappingByPort := mappingByPort - {previous};
      }
      var port := AllocateUnusedPort();
      if port.None? {
        mappings := mappings[key := mappings[key].(failed := true)];
        return true;
      }
      mappings := mappings[key := mappings[key].(port := port.value)];
      mappingByPort := mappingByPort[port.value := key];
      return false;
    }

    /** The turn of the bind loop in which the socket could be opened. */
    method Bind(key: Key)
      requires key in mappings
      modifies `mappings, `forwarders
      ensures State() == BindMapping(old(State()), key)
    {
      mappings := mappings[key := mappings[key].(bound := true)];
      forwarders := forwarders + {mappings[key].port};
    }

    method InjectPorts(client: Endpoint, count: nat, stage: Stage, prior: nat) returns (raised: bool)
      modifies this, trace
      ensures Did(ConsumeNoise(old(State()), client, count, stage, prior), raised)
    {
      hide ConsumeNoise, Allocate;
      ghost var want := ConsumeNoise(State(), client, count, stage, prior);
      ghost var start := trace.rows;
      var left := count;
      while left > 0
        invariant 0 <= left <= count
        invariant start <= trace.rows
        invariant var rest := ConsumeNoise(State(), client, left, stage, prior);
          Out(rest.state, trace.rows + rest.rows, rest.raised) == Out(want.state, start + want.rows, want.raised)
      {
        ghost var before := State();
        ConsumeUnrolls(before, client, left, stage, prior);
        var port := AllocateUnusedPort();
        if port.None? {
          return true;
        }
        noisePorts := noisePorts + {port.value};
        assert State() == TakeNoise(before);
        trace.Record(MappingConsumed(cfg.side, client, stage, Endpoint(cfg.publicIp, port.value), Count(measurements, client), prior));
        left := left - 1;
      }
      assert ConsumeNoise(State(), client, 0, stage, prior) == Out(State(), [], false) by { NothingConsumed(State(), client, stage, prior); }
      return false;
    }

    /** Inject the noise that is due and count one more peer mapping of the client. */
    method OpenPeerMapping(key: Key) returns (raised: bool)
      modifies this, trace
      ensures Did(OpenPeer(old(State()), key), raised)
    {
      hide ConsumeNoise;
      var count, measured := Count(peerMappingCounts, key.client), Count(measurements, key.client);
      ghost var counts := peerMappingCounts;
      ConsumeKeepsCounters(State(), key.client, count);
      if count == 0 && measured > 0 {
        var noise := Min(cfg.consumeBeforePunch, initialNoiseRemaining);
        raised := InjectPorts(key.client, noise, AfterMeasurement, count);
        if raised {
          return;
        }
        initialNoiseRemaining := initialNoiseRemaining - noise;
      } else if count > 0 && cfg.sweepEvery > 0 && count % cfg.sweepEvery == 0 {
        var noise := Min(cfg.sweepCount, sweepNoiseRemaining);
        raised := InjectPorts(key.client, noise, DuringSweep, count);
        if raised {
          return;
        }
        sweepNoiseRemaining := sweepNoiseRemaining - noise;
      }
      trace.Record(PeerStarted(cfg.side, key.client, key.destination, count, measured));
      peerMappingCounts := peerMappingCounts[key.client := count + 1];
      return false;
    }

    /** Loss, reordering delay and duplication, each drawn only when its option is on. */
    method DrawPacketFaults() returns (faults: Faults)
      modifies `cursor
      ensures faults == DrawFaults(old(State()))
      ensures cursor == faults.cursor
    {
      if cfg.lossRate > 0.0 {
        var coin := stream.coins(cursor);
        cursor := cursor + 1;
        if coin < cfg.lossRate {
          return Faults(true, false, false, cursor);
        }
      }
      var late := cfg.deliveryDelayMs > 0;
      if cfg.reorder {
        late := late || stream.coins(cursor) < 0.25;
        cursor := cursor + 1;
      }
      var twice := false;
      if cfg.duplicateRate > 0.0 {
        twice := stream.coins(cursor) < cfg.duplicateRate;
        cursor := cursor + 1;
      }
      return Faults(false, late, twice, cursor);
    }

    method Queue(key: Key, data: Bytes)
      requires key in mappings
      modifies `mappings, trace
      ensures Did(Enqueue(old(State()), key, data), false)
    {
      var m := mappings[key];
      if |m.pending| >= QUEUE_CAPACITY {
        trace.Record(QueueRejected(cfg.side, |data|));
        return;
      }
      mappings := mappings[key := m.(pending := m.pending + [Datagram(data, key.destination)])];
    }

    method SendOutbound(client: Endpoint, destination: Endpoint, data: Bytes) returns (raised: bool)
      modifies this, trace
      ensures Did(TranslateOutbound(old(State()), client, destination, data), raised)
    {
      hide OpenPeer, MappingFor, Enqueue;
      var key := Key(client, destination);
      if key !in mappings {
        raised := OpenPeerMapping(key);
        if raised {
          return;
        }
      }
      raised := GetMapping(key);
      if raised {
        return;
      }
      Queue(key, data);
    }

    method AnswerStun(client: Endpoint, observer: Endpoint) returns (raised: bool)
      modifies this, trace
      ensures Did(HandleStunRequest(old(State()), client, observer), raised)
    {
      hide MappingFor;
      RecordClientSocket(client);
      measurements := measurements[client := Count(measurements, client) + 1];
      MappingForIsQuiet(State(), Key(client, observer));
      raised := GetMapping(Key(client, observer));
      if raised {
        return;
      }
      trace.Record(StunObserved(cfg.side, client, observer, Count(measurements, client),
                                Endpoint(cfg.publicIp, mappings[Key(client, observer)].port)));
    }

    method ReceiveEgress(client: Endpoint, destination: Endpoint, data: Bytes) returns (raised: bool)
      modifies this, trace
      ensures Did(CaptureEgress(old(State()), client, destination, data), raised)
    {
      hide HandleStunRequest, TranslateOutbound, ParseBindingRequest;
      RecordClientSocket(client);
      trace.Record(EgressCaptured(cfg.side, client, destination, |data|));
      if destination in cfg.observers {
        if ParseBindingRequest(data).Some? {
          raised := AnswerStun(client, destination);
          return;
        }
        return false;
      }
      raised := SendOutbound(client, destination, data);
    }
  }

  /** The fabric with its two NATs, which write to one trace. */
  class NatFabric {
    const a: Nat
    const b: Nat
    const trace: NatTrace
    var reciprocalPairs: set<(Endpoint, Endpoint)>
    var inFlight: seq<Flight>
    var delivered: seq<Delivery>

    ghost predicate Valid()
      reads this, a, b, trace
    {
      a != b && a.trace == trace && b.trace == trace && PeersKnown(State())
    }

    ghost function State(): World
      reads this, a, b, trace
    {
      World(a.State(), b.State(), reciprocalPairs, trace.rows, inFlight, delivered)
    }

    constructor (a: Nat, b: Nat, trace: NatTrace)
      requires a != b && a.trace == trace && b.trace == trace
      ensures this.a == a && this.b == b && this.trace == trace
      ensures State() == World(a.State(), b.State(), {}, trace.rows, [], [])
    {
      this.a, this.b, this.trace := a, b, trace;
      reciprocalPairs, inFlight, delivered := {}, [], [];
    }

    function NatOn(side: Side): Nat {
      if side.SideA? then a else b
    }

    method MappingForPublicEndpoint(receiver: Side, e: Endpoint) returns (key: Option<Key>)
      ensures key == PeerMapping(State(), receiver, e)
    {
      var peer := NatOn(receiver.Other());
      if e.ip == peer.cfg.publicIp && e.port in peer.forwarders && e.port in peer.mappingByPort {
        return Some(peer.mappingByPort[e.port]);
      }
      return None;
    }

    method OwnerForPrivateClient(e: Endpoint) returns (owner: Option<Side>)
      ensures owner == OwnerOfClient(State(), e)
    {
      if e in a.clientSockets { return Some(SideA); }
      if e in b.clientSockets { return Some(SideB); }
      return None;
    }

    /** Report a bound mapping once, and record its pair when the peer points back. */
    method ReportMappingBound(side: Side, key: Key)
      requires Valid() && key in NatOn(side).mappings
      modifies this`reciprocalPairs, NatOn(side)`mappings, trace
      ensures Valid() && State() == ReportBound(old(State()), side, key)
    {
      var nat0 := NatOn(side);
      var m := nat0.mappings[key];
      if m.reported {
        return;
      }
      nat0.mappings := nat0.mappings[key := m.(reported := true)];
      var endpoint := Endpoint(nat0.cfg.publicIp, m.port);
      trace.Record(MappingBound(side, key, endpoint));
      var peer := MappingForPublicEndpoint(side, key.destination);
      if peer.None? || peer.value.destination != endpoint {
        return;
      }
      var pair := SortPair(endpoint, key.destination);
      if pair !in reciprocalPairs {
        reciprocalPairs := reciprocalPairs + {pair};
        trace.Record(ReciprocalPair(pair, |reciprocalPairs|));
      }
    }

    method HandOver(f: Flight)
      requires Valid() && f.key in NatOn(f.receiver).mappings
      modifies this`delivered, trace
      ensures Valid() && State() == Deliver(old(State()), f)
    {
      trace.Record(DataPlane(f.receiver, Delivered));
      var k := MappingForPublicEndpoint(f.receiver, f.source);
      var socket := if k.Some? then NatOn(f.receiver.Other()) else NatOn(f.receiver);
      var through := if k.Some? then k.value else f.key;
      if socket.mappings[through].bound {
        delivered := delivered + [Delivery(f, Endpoint(socket.cfg.publicIp, socket.mappings[through].port))];
      }
    }

    method AdmitDatagram(f: Flight)
      requires Valid() && f.key in NatOn(f.receiver).mappings
      modifies this`delivered, this`inFlight, NatOn(f.receiver)`cursor, trace
      ensures Valid() && State() == Admit(old(State()), f)
    {
      hide DrawFaults;
      var faults := NatOn(f.receiver).DrawPacketFaults();
      assert State() == MoveCursor(old(State()), f.receiver, faults.cursor);
      InflictFaults(f, faults);
    }

    method InflictFaults(f: Flight, faults: Faults)
      requires Valid() && f.key in NatOn(f.receiver).mappings
      modifies this`delivered, this`inFlight, trace
      ensures Valid() && State() == ApplyFaults(old(State()), f, faults)
    {
      hide Deliver;
      if faults.lost {
        trace.Record(DataPlane(f.receiver, LossDrop));
      } else if faults.late {
        inFlight := inFlight + if faults.twice then [f, f.(copy := 1)] else [f];
        trace.Record(DataPlane(f.receiver, Delayed));
        if faults.twice {
          trace.Record(DataPlane(f.receiver, Duplicated));
        }
      } else {
        trace.Record(DataPlane(f.receiver, Admitted));
        HandOver(f);
        if faults.twice {
          trace.Record(DataPlane(f.receiver, Duplicated));
          HandOver(f.(copy := 1));
        }
      }
    }

    method ReceivePublic(side: Side, port: int, data: Bytes, source: Endpoint, via: Option<Key>, g: Gates)
      requires Valid()
      modifies this`delivered, this`inFlight, a, b, trace
      ensures State() == HandlePublicDatagram(old(State()), side, port, data, source, via, g)
    {
      hide Admit, TranslateOutbound;
      var n := NatOn(side);
      var owner := OwnerForPrivateClient(source);
      if owner.Some? {
        if owner.value == side { return; }
        if Closed(n.cfg, GateOpen(g, side)) || Closed(NatOn(owner.value).cfg, GateOpen(g, owner.value)) {
          trace.Record(DataPlane(side, BlackholeDrop));
        } else {
          var raised := NatOn(owner.value).SendOutbound(source, Endpoint(n.cfg.publicIp, port), data);
        }
        return;
      }
      if port !in n.mappingByPort { return; }
      var key := n.mappingByPort[port];
      var allowed := AllowsInbound(side, key, source);
      if allowed {
        AdmitDatagram(Flight(side, key, data, source, via, 0));
      } else {
        trace.Record(DataPlane(side, FilterDrop));
      }
    }

    /** Endpoint-dependent filtering when it is strict, and any public socket of the peer when it is not. */
    method AllowsInbound(side: Side, key: Key, source: Endpoint) returns (allowed: bool)
      ensures allowed == InboundAllowed(State(), side, key, source)
    {
      if source == key.destination { return true; }
      if NatOn(side).cfg.strictFiltering { return false; }
      var peer := NatOn(side.Other());
      return source.ip == peer.cfg.publicIp && source.port in peer.forwarders;
    }

    method RouteTranslatedDatagram(side: Side, key: Key, d: Datagram, g: Gates)
      requires Valid() && key in NatOn(side).mappings
      modifies this`delivered, this`inFlight, a, b, trace
      ensures State() == RouteTranslated(old(State()), side, key, d, g)
    {
      hide HandlePublicDatagram;
      var n, peer := NatOn(side), NatOn(side.Other());
      var endpoint := Endpoint(n.cfg.publicIp, n.mappings[key].port);
      if Closed(n.cfg, GateOpen(g, side)) {
        trace.Record(DataPlane(side, if n.cfg.blockDirect then BlackholeDrop else GateDrop));
      } else if d.destination.ip == peer.cfg.publicIp && d.destination.port in peer.forwarders {
        if Closed(peer.cfg, GateOpen(g, side.Other())) {
          trace.Record(DataPlane(side.Other(), ReceiverDrop));
        } else {
          ReceivePublic(side.Other(), d.destination.port, d.data, endpoint, Some(key), g);
        }
      } else {
        trace.Record(Unmapped(side, endpoint, d.destination, |d.data|));
      }
    }

    /** One turn of the loop that empties a mapping's queue. */
    method FlushOne(side: Side, key: Key, g: Gates)
      requires Valid() && Enabled(State(), Flush(side, key, g)) && FlightsKnown(State())
      modifies this`delivered, this`inFlight, a, b, trace
      ensures State() == Step(old(State()), Flush(side, key, g))
    {
      hide RouteTranslated;
      var n := NatOn(side);
      var d := n.mappings[key].pending[0];
      n.mappings := n.mappings[key := n.mappings[key].(pending := n.mappings[key].pending[1..])];
      RouteTranslatedDatagram(side, key, d, g);
    }
  }

  /** The simulator as it is put together: one trace, one fabric and both NATs, or nothing where an option is refused. */
  method Assemble(cfgA: Config, allocA: Allocator, cfgB: Config, allocB: Allocator) returns (fabric: Option<NatFabric>)
    ensures fabric.Some? <==> ValidOptions(cfgA, allocA) && ValidOptions(cfgB, allocB)
    ensures fabric.Some? ==> fresh(fabric.value) && fabric.value.Valid() && fabric.value.State() == NewWorld(cfgA, allocA, cfgB, allocB)
    ensures fabric.Some? && cfgA.side == SideA && cfgB.side == SideB ==> Start(fabric.value.State())
  {
    var trace := new NatTrace();
    var a := Nat.Create(cfgA, allocA, trace);
    if a.None? { return None; }
    var b := Nat.Create(cfgB, allocB, trace);
    if b.None? { return None; }
    var whole := new NatFabric(a.value, b.value, trace);
    return Some(whole);
  }
}
