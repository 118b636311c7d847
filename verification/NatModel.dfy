/**
 One address/port-dependent NAT of the dual-NAT simulator: its state and what each of its operations does to
 that state and writes to the trace. `NatObjects` holds the objects that carry these operations out in place.

 A mapping record is named by its (client, destination) key, which the simulator never changes. An operation
 that runs out of ports raises half way through; `raised` and `exhausted` keep that visible.
 */
module NatModel {
  import opened Arithmetic
  import opened PortRing
  import opened StunCodec
  import opened Wrappers

  datatype Endpoint = Endpoint(ip: nat, port: int)

  datatype Side = SideA | SideB {
    function Other(): Side {
      if SideA? then SideB else SideA
    }
  }

  datatype Key = Key(client: Endpoint, destination: Endpoint)

  datatype Datagram = Datagram(data: Bytes, destination: Endpoint)

  datatype Mapping = Mapping(port: int, bound: bool, reported: bool, failed: bool, pending: seq<Datagram>)

  datatype Stage = AfterMeasurement | DuringSweep

  datatype Note =
    | BlackholeDrop | GateDrop | ReceiverDrop | FilterDrop | LossDrop | Delayed | Duplicated | Admitted | Delivered

  /** The rows of the event trace. Rows that no evidence check reads are `DataPlane` rows. */
  datatype Row =
    | EgressCaptured(side: Side, client: Endpoint, destination: Endpoint, bytes: nat)
    | QueueRejected(side: Side, bytes: nat)
    | MappingCreated(side: Side, key: Key, endpoint: Endpoint)
    | StunObserved(side: Side, client: Endpoint, observer: Endpoint, sample: nat, endpoint: Endpoint)
    | MappingConsumed(side: Side, client: Endpoint, stage: Stage, endpoint: Endpoint, samples: nat, prior: nat)
    | PeerStarted(side: Side, client: Endpoint, destination: Endpoint, prior: nat, samples: nat)
    | MappingBound(side: Side, key: Key, endpoint: Endpoint)
    | Unmapped(side: Side, endpoint: Endpoint, destination: Endpoint, bytes: nat)
    | ReciprocalPair(pair: (Endpoint, Endpoint), count: nat)
    | DataPlane(side: Side, note: Note)

  /** What the command line fixes for one NAT. */
  datatype Config = Config(
    side: Side, publicIp: nat, observers: set<Endpoint>,
    consumeBeforePunch: nat, sweepEvery: nat, sweepCount: nat, sweepLimit: nat,
    strictFiltering: bool, blockDirect: bool, gated: bool,
    lossRate: real, reorder: bool, duplicateRate: real, deliveryDelayMs: nat)

  datatype NatState = NatState(
    cfg: Config,
    alloc: Allocator,
    mappings: map<Key, Mapping>,
    mappingByPort: map<int, Key>,
    forwarders: set<int>,
    noisePorts: set<int>,
    initialNoiseRemaining: nat,
    sweepNoiseRemaining: nat,
    measurements: map<Endpoint, nat>,
    peerMappingCounts: map<Endpoint, nat>,
    clientSockets: set<Endpoint>,
    exhausted: bool)

  /** The state after an operation, the rows it wrote, and whether it raised for want of a port. */
  datatype Out = Out(state: NatState, rows: seq<Row>, raised: bool)

  const INITIAL_NOISE_BUDGET := 4096
  const QUEUE_CAPACITY := 256

  function Count(m: map<Endpoint, nat>, client: Endpoint): nat {
    if client in m then m[client] else 0
  }

  function Used(n: NatState): set<int> {
    n.mappingByPort.Keys + n.noisePorts
  }

  function PublicEndpoint(n: NatState, port: int): Endpoint {
    Endpoint(n.cfg.publicIp, port)
  }

  function OwnsPublicEndpoint(n: NatState, e: Endpoint): bool {
    e.ip == n.cfg.publicIp && e.port in n.forwarders
  }

  function RecordClient(n: NatState, client: Endpoint): NatState {
    n.(clientSockets := n.clientSockets + {client})
  }

  function Allocate1(n: NatState): Search {
    Allocate(n.alloc, Used(n))
  }

  /** The raise of an exhausted allocation: the generator has moved on and nothing else has changed. */
  function Exhaust(n: NatState): NatState {
    n.(alloc := Allocate1(n).rest, exhausted := true)
  }

  function MappingFor(n: NatState, key: Key): Out {
    if key in n.mappings then Out(n, [], false)
    else
      match Allocate1(n)
      case Exhausted(rest) => Out(Exhaust(n), [], true)
      case Found(port, rest) =>
        Out(n.(alloc := rest,
               mappings := n.mappings[key := Mapping(port, false, false, false, [])],
               mappingByPort := n.mappingByPort[port := key]),
            [MappingCreated(n.cfg.side, key, PublicEndpoint(n, port))], false)
  }

  /** A failed bind: the mapping gives its port back and takes the next unused one. */
  function ReassignMappingPort(n: NatState, key: Key): Out
    requires key in n.mappings
  {
    var m := n.mappings[key];
    var freed := if m.port in n.mappingByPort && n.mappingByPort[m.port] == key
                 then n.(mappingByPort := n.mappingByPort - {m.port}) else n;
    match Allocate1(freed)
    case Exhausted(rest) => Out(Exhaust(freed).(mappings := n.mappings[key := m.(failed := true)]), [], true)
    case Found(port, rest) =>
      Out(freed.(alloc := rest,
                 mappings := n.mappings[key := m.(port := port)],
                 mappingByPort := freed.mappingByPort[port := key]), [], false)
  }

  function BindMapping(n: NatState, key: Key): NatState
    requires key in n.mappings
  {
    var m := n.mappings[key];
    n.(mappings := n.mappings[key := m.(bound := true)], forwarders := n.forwarders + {m.port})
  }

  /** One allocation that nobody will use. */
  function TakeNoise(n: NatState): NatState {
    match Allocate1(n)
    case Exhausted(rest) => Exhaust(n)
    case Found(port, rest) => n.(alloc := rest, noisePorts := n.noisePorts + {port})
  }

  function ConsumeNoise(n: NatState, client: Endpoint, count: nat, stage: Stage, prior: nat): Out
    decreases count
  {
    if count == 0 then Out(n, [], false)
    else
      match Allocate1(n)
      case Exhausted(_) => Out(TakeNoise(n), [], true)
      case Found(port, _) =>
        var row := MappingConsumed(n.cfg.side, client, stage, PublicEndpoint(n, port), Count(n.measurements, client), prior);
        var tail := ConsumeNoise(TakeNoise(n), client, count - 1, stage, prior);
        tail.(rows := [row] + tail.rows)
  }

  /** The noise a new peer mapping of `client` injects first: its stage and how many ports. */
  function NoiseDue(n: NatState, client: Endpoint): Option<(Stage, nat)> {
    var count, measured := Count(n.peerMappingCounts, client), Count(n.measurements, client);
    if count == 0 && measured > 0 then
      Some((AfterMeasurement, Min(n.cfg.consumeBeforePunch, n.initialNoiseRemaining)))
    else if count > 0 && n.cfg.sweepEvery > 0 && count % n.cfg.sweepEvery == 0 then
      Some((DuringSweep, Min(n.cfg.sweepCount, n.sweepNoiseRemaining)))
    else None
  }

  function InjectNoise(n: NatState, client: Endpoint): Out {
    match NoiseDue(n, client)
    case None => Out(n, [], false)
    case Some((stage, noise)) =>
      var o := ConsumeNoise(n, client, noise, stage, Count(n.peerMappingCounts, client));
      if o.raised then o
      else if stage.AfterMeasurement? then
        o.(state := o.state.(initialNoiseRemaining := n.initialNoiseRemaining - noise))
      else o.(state := o.state.(sweepNoiseRemaining := n.sweepNoiseRemaining - noise))
  }

  function Enqueue(n: NatState, key: Key, data: Bytes): Out
    requires key in n.mappings
  {
    var m := n.mappings[key];
    if |m.pending| >= QUEUE_CAPACITY then Out(n, [QueueRejected(n.cfg.side, |data|)], false)
    else Out(n.(mappings := n.mappings[key := m.(pending := m.pending + [Datagram(data, key.destination)])]), [], false)
  }

  /** The part of an outbound datagram that runs only when it opens a mapping. */
  function OpenPeer(n: NatState, key: Key): Out {
    var noisy := InjectNoise(n, key.client);
    if noisy.raised then noisy
    else
      var count := Count(n.peerMappingCounts, key.client);
      Out(noisy.state.(peerMappingCounts := n.peerMappingCounts[key.client := count + 1]),
          noisy.rows + [PeerStarted(n.cfg.side, key.client, key.destination, count, Count(n.measurements, key.client))],
          false)
  }

  function MapAndQueue(n: NatState, key: Key, data: Bytes): Out {
    var mapped := MappingFor(n, key);
    if mapped.raised then mapped
    else
      var queued := Enqueue(mapped.state, key, data);
      Out(queued.state, mapped.rows + queued.rows, false)
  }

  function TranslateOutbound(n: NatState, client: Endpoint, destination: Endpoint, data: Bytes): Out {
    var key := Key(client, destination);
    var start := if key in n.mappings then Out(n, [], false) else OpenPeer(n, key);
    if start.raised then start
    else
      var rest := MapAndQueue(start.state, key, data);
      Out(rest.state, start.rows + rest.rows, rest.raised)
  }

  function CountMeasurement(n: NatState, client: Endpoint): NatState {
    RecordClient(n, client).(measurements := n.measurements[client := Count(n.measurements, client) + 1])
  }

  function HandleStunRequest(n: NatState, client: Endpoint, observer: Endpoint): Out {
    var o := MappingFor(CountMeasurement(n, client), Key(client, observer));
    if o.raised then o
    else
      var port := o.state.mappings[Key(client, observer)].port;
      o.(rows := o.rows
           + [StunObserved(n.cfg.side, client, observer, Count(n.measurements, client) + 1, PublicEndpoint(n, port))])
  }

  /** A well-formed frame at the egress gateway: a measurement for an observer, otherwise a peer datagram. */
  function CaptureEgress(n: NatState, client: Endpoint, destination: Endpoint, data: Bytes): Out {
    var captured := RecordClient(n, client);
    var row := EgressCaptured(n.cfg.side, client, destination, |data|);
    var o :=
      if destination in n.cfg.observers then
        if ParseBindingRequest(data).Some? then HandleStunRequest(captured, client, destination)
        else Out(captured, [], false)
      else TranslateOutbound(captured, client, destination, data);
    o.(rows := [row] + o.rows)
  }

  /** The options the constructor accepts. */
  predicate ValidOptions(cfg: Config, alloc: Allocator) {
    && (alloc.mode.StepMode? ==> alloc.step != 0)
    && OnRing(alloc.nextPort)
    && 0.0 <= cfg.duplicateRate <= 1.0
    && cfg.consumeBeforePunch <= 64
    && cfg.sweepEvery <= 1024 && cfg.sweepCount <= 64 && cfg.sweepLimit <= 4096
  }

  function NewNat(cfg: Config, alloc: Allocator): NatState {
    NatState(cfg, alloc, map[], map[], {}, {}, INITIAL_NOISE_BUDGET, cfg.sweepLimit, map[], map[], {}, false)
  }
}
