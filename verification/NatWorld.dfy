/**
 Two NATs on one fabric, in shim mode: what an event does to both of them, the trace, the reciprocal pairs and
 the datagrams in flight. Every await of the simulator is a boundary between events.
 */
module NatWorld {
  import opened PortRing
  import opened NatModel
  import opened StunCodec
  import opened Wrappers

  /** An admitted datagram: `key` names the receiving mapping, `via` the mapping it was routed from. */
  datatype Flight = Flight(receiver: Side, key: Key, data: Bytes, source: Endpoint, via: Option<Key>, copy: nat)

  /** A datagram handed to the private client of `flight.key`, which sees it come from `seenFrom`. */
  datatype Delivery = Delivery(flight: Flight, seenFrom: Endpoint)

  datatype World = World(
    a: NatState, b: NatState,
    pairs: set<(Endpoint, Endpoint)>,
    trace: seq<Row>,
    flights: seq<Flight>,
    deliveries: seq<Delivery>)

  /** Whether each NAT's gate file exists when an event looks. */
  datatype Gates = Gates(a: bool, b: bool)

  datatype Event =
    | Stun(side: Side, client: Endpoint, observer: Endpoint)
    | Egress(side: Side, client: Endpoint, destination: Endpoint, data: Bytes)
    | BindOk(side: Side, key: Key)
    | BindBusy(side: Side, key: Key)
    | Report(side: Side, key: Key)
    | Flush(side: Side, key: Key, gates: Gates)
    | Arrive(side: Side, port: int, source: Endpoint, data: Bytes, gates: Gates)
    | Land(index: nat)

  function Of(w: World, side: Side): NatState {
    if side.SideA? then w.a else w.b
  }

  function With(w: World, side: Side, n: NatState): World {
    if side.SideA? then w.(a := n) else w.(b := n)
  }

  function Emit(w: World, rows: seq<Row>): World {
    w.(trace := w.trace + rows)
  }

  function Apply(w: World, side: Side, o: Out): World {
    Emit(With(w, side, o.state), o.rows)
  }

  function GateOpen(g: Gates, side: Side): bool {
    if side.SideA? then g.a else g.b
  }

  function Closed(cfg: Config, open: bool): bool {
    cfg.blockDirect || (cfg.gated && !open)
  }

  function MappingEndpoint(n: NatState, key: Key): Endpoint
    requires key in n.mappings
  {
    PublicEndpoint(n, n.mappings[key].port)
  }

  /** The peer's mapping behind a public endpoint, if the peer owns that endpoint. */
  function PeerMapping(w: World, receiver: Side, e: Endpoint): Option<Key> {
    var peer := Of(w, receiver.Other());
    if OwnsPublicEndpoint(peer, e) && e.port in peer.mappingByPort then Some(peer.mappingByPort[e.port]) else None
  }

  function OwnerOfClient(w: World, e: Endpoint): Option<Side> {
    if e in w.a.clientSockets then Some(SideA)
    else if e in w.b.clientSockets then Some(SideB)
    else None
  }

  predicate Before(x: Endpoint, y: Endpoint) {
    x.ip < y.ip || (x.ip == y.ip && x.port <= y.port)
  }

  function SortPair(x: Endpoint, y: Endpoint): (Endpoint, Endpoint) {
    if Before(x, y) then (x, y) else (y, x)
  }

  function ReportBound(w: World, side: Side, key: Key): World
    requires key in Of(w, side).mappings
  {
    var n := Of(w, side);
    var m := n.mappings[key];
    if m.reported then w
    else
      var endpoint := MappingEndpoint(n, key);
      var n' := n.(mappings := n.mappings[key := m.(reported := true)]);
      var w' := Emit(With(w, side, n'), [MappingBound(side, key, endpoint)]);
      match PeerMapping(w', side, key.destination)
      case None => w'
      case Some(peer) =>
        var pair := SortPair(endpoint, key.destination);
        if peer.destination != endpoint || pair in w'.pairs then w'
        else Emit(w'.(pairs := w'.pairs + {pair}), [ReciprocalPair(pair, |w'.pairs| + 1)])
  }

  function InboundAllowed(w: World, receiver: Side, key: Key, source: Endpoint): bool {
    source == key.destination
    || (!Of(w, receiver).cfg.strictFiltering && OwnsPublicEndpoint(Of(w, receiver.Other()), source))
  }

  ghost predicate IndexKnown(n: NatState) {
    forall p | p in n.mappingByPort :: n.mappingByPort[p] in n.mappings
  }

  ghost predicate PeersKnown(w: World) {
    IndexKnown(w.a) && IndexKnown(w.b)
  }

  function Deliver(w: World, f: Flight): World
    requires f.key in Of(w, f.receiver).mappings
    requires PeersKnown(w)
  {
    var w' := Emit(w, [DataPlane(f.receiver, Delivered)]);
    var peer := Of(w, f.receiver.Other());
    match PeerMapping(w, f.receiver, f.source)
    case Some(k) =>
      if peer.mappings[k].bound then w'.(deliveries := w'.deliveries + [Delivery(f, MappingEndpoint(peer, k))]) else w'
    case None =>
      var n := Of(w, f.receiver);
      if n.mappings[f.key].bound then w'.(deliveries := w'.deliveries + [Delivery(f, MappingEndpoint(n, f.key))]) else w'
  }

  /** The random faults of one admitted datagram, drawn from the receiver's own generator. */
  datatype Faults = Faults(lost: bool, late: bool, twice: bool, cursor: nat)

  function DrawFaults(n: NatState): Faults {
    var c0 := n.alloc.cursor;
    var coins := n.alloc.stream.coins;
    var c1 := if n.cfg.lossRate > 0.0 then c0 + 1 else c0;
    if n.cfg.lossRate > 0.0 && coins(c0) < n.cfg.lossRate then Faults(true, false, false, c1)
    else
      var c2 := if n.cfg.reorder then c1 + 1 else c1;
      var late := n.cfg.deliveryDelayMs > 0 || (n.cfg.reorder && coins(c1) < 0.25);
      var c3 := if n.cfg.duplicateRate > 0.0 then c2 + 1 else c2;
      Faults(false, late, n.cfg.duplicateRate > 0.0 && coins(c2) < n.cfg.duplicateRate, c3)
  }

  function ApplyFaults(w: World, f: Flight, faults: Faults): World
    requires f.key in Of(w, f.receiver).mappings && PeersKnown(w)
  {
    var again := f.(copy := 1);
    if faults.lost then Emit(w, [DataPlane(f.receiver, LossDrop)])
    else if faults.late then
      Emit(w.(flights := w.flights + if faults.twice then [f, again] else [f]),
           [DataPlane(f.receiver, Delayed)] + if faults.twice then [DataPlane(f.receiver, Duplicated)] else [])
    else
      var once := Deliver(Emit(w, [DataPlane(f.receiver, Admitted)]), f);
      if faults.twice then Deliver(Emit(once, [DataPlane(f.receiver, Duplicated)]), again) else once
  }

  function MoveCursor(w: World, side: Side, cursor: nat): World {
    With(w, side, Of(w, side).(alloc := Of(w, side).alloc.(cursor := cursor)))
  }

  function Admit(w: World, f: Flight): World
    requires f.key in Of(w, f.receiver).mappings && PeersKnown(w)
  {
    var faults := DrawFaults(Of(w, f.receiver));
    ApplyFaults(MoveCursor(w, f.receiver, faults.cursor), f, faults)
  }

  function HandlePublicDatagram(w: World, side: Side, port: int, data: Bytes, source: Endpoint, via: Option<Key>, g: Gates): World
    requires PeersKnown(w)
  {
    var n := Of(w, side);
    match OwnerOfClient(w, source)
    case Some(owner) =>
      if owner == side then w
      else if Closed(n.cfg, GateOpen(g, side)) || Closed(Of(w, owner).cfg, GateOpen(g, owner)) then
        Emit(w, [DataPlane(side, BlackholeDrop)])
      else Apply(w, owner, TranslateOutbound(Of(w, owner), source, PublicEndpoint(n, port), data))
    case None =>
      if port !in n.mappingByPort then w
      else
        var key := n.mappingByPort[port];
        if InboundAllowed(w, side, key, source) then Admit(w, Flight(side, key, data, source, via, 0))
        else Emit(w, [DataPlane(side, FilterDrop)])
  }

  function RouteTranslated(w: World, side: Side, key: Key, d: Datagram, g: Gates): World
    requires PeersKnown(w) && key in Of(w, side).mappings
  {
    var n, peer := Of(w, side), Of(w, side.Other());
    if Closed(n.cfg, GateOpen(g, side)) then
      Emit(w, [DataPlane(side, if n.cfg.blockDirect then BlackholeDrop else GateDrop)])
    else if OwnsPublicEndpoint(peer, d.destination) then
      if Closed(peer.cfg, GateOpen(g, side.Other())) then Emit(w, [DataPlane(side.Other(), ReceiverDrop)])
      else HandlePublicDatagram(w, side.Other(), d.destination.port, d.data, MappingEndpoint(n, key), Some(key), g)
    else Emit(w, [Unmapped(side, MappingEndpoint(n, key), d.destination, |d.data|)])
  }

  /** Take the oldest queued datagram of a mapping off its queue. */
  function PopPending(n: NatState, key: Key): NatState
    requires key in n.mappings && |n.mappings[key].pending| > 0
  {
    n.(mappings := n.mappings[key := n.mappings[key].(pending := n.mappings[key].pending[1..])])
  }

  // ----- events -----

  /** Nobody but a NAT sends from an address that one of the two NATs has bound. */
  predicate Outside(w: World, e: Endpoint) {
    !OwnsPublicEndpoint(w.a, e) && !OwnsPublicEndpoint(w.b, e)
  }

  predicate Unbound(n: NatState, key: Key) {
    key in n.mappings && !n.mappings[key].bound && !n.mappings[key].failed
  }

  /**
   When an event can happen. The operating system gives three facts: a private client does not share an
   address with a bound public port, two sockets are never bound to one address, and a stray datagram comes
   from neither of them. The rest is the simulator's own sequencing.
   */
  predicate Enabled(w: World, e: Event) {
    match e
    case Stun(side, client, observer) => observer in Of(w, side).cfg.observers && Outside(w, client)
    case Egress(side, client, _, _) => Outside(w, client)
    case BindOk(side, key) =>
      && Unbound(Of(w, side), key)
      && var e := MappingEndpoint(Of(w, side), key);
      && !OwnsPublicEndpoint(Of(w, side.Other()), e)
      && e !in w.a.clientSockets && e !in w.b.clientSockets
    case BindBusy(side, key) => Unbound(Of(w, side), key)
    case Report(side, key) => key in Of(w, side).mappings && Of(w, side).mappings[key].bound
    case Flush(side, key, _) =>
      && key in Of(w, side).mappings && Of(w, side).mappings[key].reported
      && |Of(w, side).mappings[key].pending| > 0
    case Arrive(side, port, source, _, _) =>
      port in Of(w, side).forwarders && Outside(w, source) && OwnerOfClient(w, source).None?
    case Land(index) => index < |w.flights|
  }

  ghost predicate FlightsKnown(w: World) {
    forall f | f in w.flights :: f.key in Of(w, f.receiver).mappings
  }

  function Step(w: World, e: Event): World
    requires Enabled(w, e) && PeersKnown(w) && FlightsKnown(w)
  {
    match e
    case Stun(side, client, observer) => Apply(w, side, HandleStunRequest(Of(w, side), client, observer))
    case Egress(side, client, destination, data) => Apply(w, side, CaptureEgress(Of(w, side), client, destination, data))
    case BindOk(side, key) => With(w, side, BindMapping(Of(w, side), key))
    case BindBusy(side, key) => Apply(w, side, ReassignMappingPort(Of(w, side), key))
    case Report(side, key) => ReportBound(w, side, key)
    case Flush(side, key, g) =>
      var d := Of(w, side).mappings[key].pending[0];
      RouteTranslated(With(w, side, PopPending(Of(w, side), key)), side, key, d, g)
    case Arrive(side, port, source, data, g) => HandlePublicDatagram(w, side, port, data, source, None, g)
    case Land(index) =>
      Deliver(w.(flights := w.flights[..index] + w.flights[index + 1..]), w.flights[index])
  }

  function NewWorld(cfgA: Config, allocA: Allocator, cfgB: Config, allocB: Allocator): World {
    World(NewNat(cfgA, allocA), NewNat(cfgB, allocB), {}, [], [], [])
  }

  ghost predicate Start(w: World) {
    && w == NewWorld(w.a.cfg, w.a.alloc, w.b.cfg, w.b.alloc)
    && ValidOptions(w.a.cfg, w.a.alloc) && ValidOptions(w.b.cfg, w.b.alloc)
    && w.a.cfg.side == SideA && w.b.cfg.side == SideB
  }

  /** `es` is a run from `w` to `w'`: each event is enabled where it happens. */
  ghost predicate Runs(w: World, es: seq<Event>, w': World)
    decreases |es|
  {
    if es == [] then w' == w
    else Enabled(w, es[0]) && PeersKnown(w) && FlightsKnown(w) && Runs(Step(w, es[0]), es[1..], w')
  }
}
