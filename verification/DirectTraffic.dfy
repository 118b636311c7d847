/**
 What becomes of a datagram that a client sends to the other NAT, from the options, the gate files and the two mapping
 tables alone: dropped and where, or handed to which client, as seen from which address.
 */
module DirectTraffic {
  import opened NatModel
  import opened NatTable
  import opened NatWorld
  import opened WorldSafety
  import opened StunCodec
  import opened Wrappers

  /** A side lets no peer traffic pass: it blocks, or waits for a gate file that is not there. */
  ghost predicate Shut(w: World, g: Gates, side: Side) {
    match side
    case SideA => w.a.cfg.blockDirect || (w.a.cfg.gated && !g.a)
    case SideB => w.b.cfg.blockDirect || (w.b.cfg.gated && !g.b)
  }

  lemma ShutIsClosed(w: World, g: Gates, side: Side)
    ensures Shut(w, g, side) <==> Closed(Of(w, side).cfg, GateOpen(g, side))
  {
  }

  /** The mapping of `side`'s peer that has the public endpoint `e`, bound. */
  ghost predicate HasEndpoint(n: NatState, k: Key, e: Endpoint) {
    k in n.mappings && n.mappings[k].bound && e == Endpoint(n.cfg.publicIp, n.mappings[k].port)
  }

  /** No fault option is on, and nothing is delayed. */
  ghost predicate Smooth(c: Config) {
    c.lossRate <= 0.0 && !c.reorder && c.duplicateRate <= 0.0 && c.deliveryDelayMs == 0
  }

  /** The mapping behind a public endpoint, as the tables of a reachable world say it. */
  lemma EndpointsMapping(n: NatState, e: Endpoint)
    requires NatInv(n)
    ensures OwnsPublicEndpoint(n, e) <==> exists k :: HasEndpoint(n, k, e)
    ensures forall k | HasEndpoint(n, k, e) :: e.port in n.mappingByPort && n.mappingByPort[e.port] == k
  {
    InvBound(n);
    hide NatInv;
    if OwnsPublicEndpoint(n, e) {
      assert HasEndpoint(n, n.mappingByPort[e.port], e);
    }
  }

  // ----- what a client is handed -----

  /** The address a client sees: the sender's, if the other NAT has it, and otherwise that of its own mapping. */
  ghost function SeenFrom(w: World, f: Flight): Endpoint
    requires f.key in Of(w, f.receiver).mappings
  {
    var n := Of(w, f.receiver);
    if exists k :: HasEndpoint(Of(w, f.receiver.Other()), k, f.source) then f.source
    else Endpoint(n.cfg.publicIp, n.mappings[f.key].port)
  }

  ghost function Handed(w: World, f: Flight): Delivery
    requires f.key in Of(w, f.receiver).mappings
  {
    Delivery(f, SeenFrom(w, f))
  }

  lemma TablesKnown(w: World)
    requires NatInv(w.a) && NatInv(w.b)
    ensures PeersKnown(w)
  {
  }

  lemma DeliverHands(w: World, f: Flight)
    requires NatInv(w.a) && NatInv(w.b) && f.key in Of(w, f.receiver).mappings && Of(w, f.receiver).mappings[f.key].bound
    ensures PeersKnown(w)
    ensures Deliver(w, f) == w.(trace := w.trace + [DataPlane(f.receiver, Delivered)], deliveries := w.deliveries + [Handed(w, f)])
  {
    TablesKnown(w);
    var peer := Of(w, f.receiver.Other());
    EndpointsMapping(peer, f.source);
    hide NatInv;
    if k :| HasEndpoint(peer, k, f.source) {
      assert PeerMapping(w, f.receiver, f.source) == Some(k);
    }
  }

  /** The coins of an admitted datagram: lost, put off, doubled; and how many are taken from the receiver's generator. */
  datatype Fate = Fate(lost: bool, putOff: bool, doubled: bool, drawn: nat)

  ghost predicate FateOf(n: NatState, x: Fate) {
    var coin := (i: nat) => n.alloc.stream.coins(n.alloc.cursor + i);
    var a, b, c := if n.cfg.lossRate > 0.0 then 1 else 0, if n.cfg.reorder then 1 else 0, if n.cfg.duplicateRate > 0.0 then 1 else 0;
    && (x.lost <==> a == 1 && coin(0) < n.cfg.lossRate)
    && (x.putOff <==> !x.lost && (n.cfg.deliveryDelayMs > 0 || (b == 1 && coin(a) < 0.25)))
    && (x.doubled <==> !x.lost && c == 1 && coin(a + b) < n.cfg.duplicateRate)
    && x.drawn == if x.lost then 1 else a + b + c
  }

  lemma FaultsAreFate(n: NatState)
    ensures var f := DrawFaults(n);
      FateOf(n, Fate(f.lost, f.late, f.twice, f.cursor - n.alloc.cursor)) && f.cursor >= n.alloc.cursor
  {
  }

  ghost function Copies(f: Flight, x: Fate): seq<Flight> {
    if x.lost then [] else if x.doubled then [f, f.(copy := 1)] else [f]
  }

  /** Only rows that no evidence check reads are added. */
  ghost predicate OnlyNotes(trace: seq<Row>, trace': seq<Row>) {
    trace <= trace' && forall i | |trace| <= i < |trace'| :: trace'[i].DataPlane?
  }

  /** The copies of an admitted datagram are handed over at once, or kept for later; nothing but the generator moves. */
  ghost predicate Passed(w: World, f: Flight, x: Fate, w': World)
    requires f.key in Of(w, f.receiver).mappings
  {
    var v := MoveCursor(w, f.receiver, Of(w, f.receiver).alloc.cursor + x.drawn);
    var copies := Copies(f, x);
    && w' == v.(trace := w'.trace, flights := w'.flights, deliveries := w'.deliveries)
    && OnlyNotes(w.trace, w'.trace)
    && w'.flights == w.flights + (if x.putOff then copies else [])
    && w'.deliveries == w.deliveries
         + if x.putOff then [] else seq(|copies|, i requires 0 <= i < |copies| => Delivery(copies[i], SeenFrom(w, f)))
  }

  lemma AdmitPasses(w: World, f: Flight)
    requires WorldInv(w) && f.key in Of(w, f.receiver).mappings && Of(w, f.receiver).mappings[f.key].bound
    ensures PeersKnown(w)
    ensures exists x :: FateOf(Of(w, f.receiver), x) && Passed(w, f, x, Admit(w, f))
  {
    WorldInvKnows(w);
    var n := Of(w, f.receiver);
    var faults := DrawFaults(n);
    FaultsAreFate(n);
    var x := Fate(faults.lost, faults.late, faults.twice, faults.cursor - n.alloc.cursor);
    var v := MoveCursor(w, f.receiver, faults.cursor);
    CursorMoves(w, f.receiver, faults.cursor);
    SeesTheSame(w, v, f);
    hide DrawFaults, FateOf, WorldInv;
    assert NatInv(v.a) && NatInv(v.b) by { WorldTables(v); }
    FaultsPass(w, v, f, faults, x);
  }

  lemma WorldTables(w: World)
    requires WorldInv(w)
    ensures NatInv(w.a) && NatInv(w.b) && PeersKnown(w)
  {
    WorldInvKnows(w);
  }

  lemma FaultsPass(w: World, v: World, f: Flight, faults: Faults, x: Fate)
    requires NatInv(v.a) && NatInv(v.b) && f.key in Of(w, f.receiver).mappings && Of(w, f.receiver).mappings[f.key].bound
    requires v == MoveCursor(w, f.receiver, faults.cursor) && faults.cursor == Of(w, f.receiver).alloc.cursor + x.drawn
    requires (x.lost, x.putOff, x.doubled) == (faults.lost, faults.late, faults.twice) && SeenFrom(v, f) == SeenFrom(w, f)
    ensures PeersKnown(v) && Passed(w, f, x, ApplyFaults(v, f, faults))
  {
    TablesKnown(v);
    var again := f.(copy := 1);
    CopySeesTheSame(v, f);
    FaultsNote(v, f, faults);
    hide NatInv, Deliver, SeenFrom, OnlyNotes;
    if !faults.lost && !faults.late {
      HandsAtOnce(v, f, faults.twice);
      NoneYet(w, f, x);
    }
  }

  /** The copies that are handed over. */
  ghost function HandedCopies(w: World, f: Flight, twice: bool): seq<Delivery>
    requires f.key in Of(w, f.receiver).mappings
  {
    [Delivery(f, SeenFrom(w, f))] + if twice then [Delivery(f.(copy := 1), SeenFrom(w, f))] else []
  }

  lemma NoneYet(w: World, f: Flight, x: Fate)
    requires f.key in Of(w, f.receiver).mappings && !x.lost
    ensures var copies := Copies(f, x);
      seq(|copies|, i requires 0 <= i < |copies| => Delivery(copies[i], SeenFrom(w, f))) == HandedCopies(w, f, x.doubled)
  {
    hide SeenFrom;
  }

  lemma HandsAtOnce(v: World, f: Flight, twice: bool)
    requires NatInv(v.a) && NatInv(v.b) && f.key in Of(v, f.receiver).mappings && Of(v, f.receiver).mappings[f.key].bound
    ensures PeersKnown(v)
    ensures forall faults: Faults | !faults.lost && !faults.late && faults.twice == twice ::
      var w' := ApplyFaults(v, f, faults);
      w' == v.(trace := w'.trace, deliveries := v.deliveries + HandedCopies(v, f, twice))
  {
    TablesKnown(v);
    var again := f.(copy := 1);
    CopySeesTheSame(v, f);
    var w0 := Emit(v, [DataPlane(f.receiver, Admitted)]);
    SeesTheSame(v, w0, f);
    DeliverHands(w0, f);
    var once := Deliver(w0, f);
    var w2 := Emit(once, [DataPlane(f.receiver, Duplicated)]);
    SeesTheSame(v, w2, again);
    DeliverHands(w2, again);
    hide NatInv, Deliver, SeenFrom;
  }

  lemma CopySeesTheSame(w: World, f: Flight)
    requires f.key in Of(w, f.receiver).mappings
    ensures SeenFrom(w, f.(copy := 1)) == SeenFrom(w, f)
  {
  }

  lemma DeliverNotes(w: World, f: Flight)
    requires f.key in Of(w, f.receiver).mappings && PeersKnown(w)
    ensures Deliver(w, f).trace == w.trace + [DataPlane(f.receiver, Delivered)]
    ensures Deliver(w, f).a == w.a && Deliver(w, f).b == w.b
  {
  }

  lemma FaultsNote(w: World, f: Flight, faults: Faults)
    requires f.key in Of(w, f.receiver).mappings && PeersKnown(w)
    ensures OnlyNotes(w.trace, ApplyFaults(w, f, faults).trace)
  {
    var w0 := Emit(w, [DataPlane(f.receiver, Admitted)]);
    DeliverNotes(w0, f);
    var once := Deliver(w0, f);
    DeliverNotes(Emit(once, [DataPlane(f.receiver, Duplicated)]), f.(copy := 1));
    hide Deliver;
  }

  lemma SeesTheSame(w: World, v: World, f: Flight)
    requires f.key in Of(w, f.receiver).mappings && v.a == w.a.(alloc := v.a.alloc) && v.b == w.b.(alloc := v.b.alloc)
    ensures SeenFrom(v, f) == SeenFrom(w, f)
  {
    var peer, peer' := Of(w, f.receiver.Other()), Of(v, f.receiver.Other());
    assert forall k :: HasEndpoint(peer', k, f.source) <==> HasEndpoint(peer, k, f.source);
    hide HasEndpoint;
  }

  // ----- one datagram of a client -----

  /** The world with the oldest datagram of a mapping taken off its queue. */
  ghost function Popped(w: World, side: Side, key: Key): World
    requires key in Of(w, side).mappings && |Of(w, side).mappings[key].pending| > 0
  {
    var n := Of(w, side);
    With(w, side, n.(mappings := n.mappings[key := n.mappings[key].(pending := n.mappings[key].pending[1..])]))
  }

  /** The datagram as the peer receives it over its mapping `k`. */
  ghost function Sent(w: World, side: Side, key: Key, k: Key): Flight
    requires key in Of(w, side).mappings && |Of(w, side).mappings[key].pending| > 0
  {
    var n := Of(w, side);
    Flight(side.Other(), k, n.mappings[key].pending[0].data, Endpoint(n.cfg.publicIp, n.mappings[key].port), Some(key), 0)
  }

  /** What comes of it when neither side is shut and the peer has mapping `k` at the destination. */
  ghost predicate Reaches(w: World, side: Side, key: Key, k: Key, w': World)
    requires key in Of(w, side).mappings && |Of(w, side).mappings[key].pending| > 0
    requires HasEndpoint(Of(w, side.Other()), k, key.destination)
  {
    var peer, f, v := Of(w, side.Other()), Sent(w, side, key, k), Popped(w, side, key);
    if peer.cfg.strictFiltering && k.destination != f.source then
      w' == v.(trace := w.trace + [DataPlane(side.Other(), FilterDrop)])
    else
      exists x :: FateOf(peer, x) && Passed(v, f, x, w')
  }

  /**
   The whole of what becomes of a queued datagram, in any reachable world: dropped by the sender's block or gate, unmapped,
   dropped by the receiver's, dropped by the filter, or admitted.
   */
  lemma FlushOutcome(w: World, side: Side, key: Key, g: Gates)
    requires WorldInv(w) && Enabled(w, Flush(side, key, g))
    ensures PeersKnown(w) && FlightsKnown(w)
    ensures var n, peer, v, w' := Of(w, side), Of(w, side.Other()), Popped(w, side, key), Step(w, Flush(side, key, g));
      if Shut(w, g, side) then
        w' == v.(trace := w.trace + [DataPlane(side, if n.cfg.blockDirect then BlackholeDrop else GateDrop)])
      else if forall k :: !HasEndpoint(peer, k, key.destination) then
        w' == v.(trace := w.trace + [Unmapped(side, Endpoint(n.cfg.publicIp, n.mappings[key].port), key.destination,
                                              |n.mappings[key].pending[0].data|)])
      else if Shut(w, g, side.Other()) then
        w' == v.(trace := w.trace + [DataPlane(side.Other(), ReceiverDrop)])
      else exists k :: HasEndpoint(peer, k, key.destination) && Reaches(w, side, key, k, w')
  {
    WorldInvKnows(w);
    WorldTables(w);
    var n, peer, v := Of(w, side), Of(w, side.Other()), Popped(w, side, key);
    PopPendingKeeps(w, side, key);
    assert v == With(w, side, PopPending(n, key));
    ShutIsClosed(w, g, side);
    ShutIsClosed(w, g, side.Other());
    EndpointsMapping(peer, key.destination);
    var d := n.mappings[key].pending[0];
    assert Step(w, Flush(side, key, g)) == RouteTranslated(v, side, key, d, g);
    assert Of(v, side.Other()) == peer && Of(v, side).cfg == n.cfg;
    hide WorldInv, NatInv, Step, PopPending;
    if !Shut(w, g, side) && !Shut(w, g, side.Other()) && exists k :: HasEndpoint(peer, k, key.destination) {
      var k :| HasEndpoint(peer, k, key.destination);
      Received(w, v, side, key, k, g);
    }
    hide HandlePublicDatagram, Reaches, Shut, Closed;
  }

  /** Past both gates. */
  lemma Received(w: World, v: World, side: Side, key: Key, k: Key, g: Gates)
    requires WorldInv(w) && WorldInv(v) && Enabled(w, Flush(side, key, g)) && v == Popped(w, side, key)
    requires HasEndpoint(Of(w, side.Other()), k, key.destination)
    ensures PeersKnown(v)
    ensures Reaches(w, side, key, k, HandlePublicDatagram(v, side.Other(), key.destination.port, Sent(w, side, key, k).data,
                                                          Sent(w, side, key, k).source, Some(key), g))
  {
    WorldTables(v);
    var n, peer, f := Of(v, side), Of(v, side.Other()), Sent(w, side, key, k);
    EndpointsMapping(peer, key.destination);
    EndpointsMapping(n, f.source);
    SenderIsBound(v, side, key);
    assert HasEndpoint(n, key, f.source);
    assert InboundAllowed(v, side.Other(), k, f.source) <==> !(peer.cfg.strictFiltering && k.destination != f.source);
    AdmitPasses(v, f);
    hide WorldInv, NatInv, Admit, FateOf, Passed, HasEndpoint;
  }

  lemma SenderIsBound(w: World, side: Side, key: Key)
    requires WorldInv(w) && key in Of(w, side).mappings && Of(w, side).mappings[key].reported
    ensures Of(w, side).mappings[key].bound
    ensures OwnerOfClient(w, Endpoint(Of(w, side).cfg.publicIp, Of(w, side).mappings[key].port)).None?
  {
    WorldTables(w);
    InvBound(Of(w, side));
    BoundIsNoClient(w, side, key);
    hide WorldInv, NatInv;
  }

  /** If either side blocks, or is gated with its gate file absent, nothing is handed over or kept for later. */
  lemma ShutDrops(w: World, side: Side, key: Key, g: Gates)
    requires WorldInv(w) && Enabled(w, Flush(side, key, g))
    requires w.a.cfg.blockDirect || (w.a.cfg.gated && !g.a) || w.b.cfg.blockDirect || (w.b.cfg.gated && !g.b)
    ensures PeersKnown(w) && FlightsKnown(w)
    ensures var w' := Step(w, Flush(side, key, g)); w'.flights == w.flights && w'.deliveries == w.deliveries
  {
    FlushOutcome(w, side, key, g);
    assert Shut(w, g, side) || Shut(w, g, side.Other());
    hide Step, Shut, HasEndpoint, Reaches, WorldInv;
  }

  lemma SentIsSeen(w: World, side: Side, key: Key, k: Key)
    requires WorldInv(w) && key in Of(w, side).mappings && |Of(w, side).mappings[key].pending| > 0 && Of(w, side).mappings[key].reported
    requires k in Of(w, side.Other()).mappings
    ensures var v, f := Popped(w, side, key), Sent(w, side, key, k); SeenFrom(v, f) == f.source
  {
    SenderIsBound(w, side, key);
    hide WorldInv;
    var v, f := Popped(w, side, key), Sent(w, side, key, k);
    assert f.receiver.Other() == side;
    assert HasEndpoint(Of(v, f.receiver.Other()), key, f.source);
  }

  /** Without faults the one copy is handed over at once. */
  lemma SmoothPasses(w: World, f: Flight, x: Fate, w': World)
    requires f.key in Of(w, f.receiver).mappings && Smooth(Of(w, f.receiver).cfg) && FateOf(Of(w, f.receiver), x) && Passed(w, f, x, w')
    ensures w' == w.(trace := w'.trace, deliveries := w.deliveries + [Delivery(f, SeenFrom(w, f))])
  {
    assert x == Fate(false, false, false, 0);
    assert Copies(f, x) == [f];
    hide SeenFrom;
  }

  /**
   A queued datagram is handed to a client at once, and seen to come from the sender's public endpoint, exactly when
   neither side is shut, the destination is a bound endpoint of the peer, and its mapping points back or is not strictly
   filtered; otherwise nobody is handed anything. That is for a receiver with no fault option on.
   */
  lemma HandedIff(w: World, side: Side, key: Key, g: Gates)
    requires WorldInv(w) && Enabled(w, Flush(side, key, g)) && Smooth(Of(w, side.Other()).cfg)
    ensures PeersKnown(w) && FlightsKnown(w)
    ensures var peer, w' := Of(w, side.Other()), Step(w, Flush(side, key, g));
      && w'.flights == w.flights
      && (w'.deliveries != w.deliveries <==>
            && !(w.a.cfg.blockDirect || (w.a.cfg.gated && !g.a) || w.b.cfg.blockDirect || (w.b.cfg.gated && !g.b))
            && exists k :: HasEndpoint(peer, k, key.destination)
                 && (!peer.cfg.strictFiltering || k.destination == Endpoint(Of(w, side).cfg.publicIp, Of(w, side).mappings[key].port)))
      && (forall k | HasEndpoint(peer, k, key.destination) && w'.deliveries != w.deliveries ::
            w'.deliveries == w.deliveries + [Delivery(Sent(w, side, key, k), Sent(w, side, key, k).source)])
  {
    FlushOutcome(w, side, key, g);
    WorldTables(w);
    var peer, v, w' := Of(w, side.Other()), Popped(w, side, key), Step(w, Flush(side, key, g));
    assert Shut(w, g, side) || Shut(w, g, side.Other()) <==>
      w.a.cfg.blockDirect || (w.a.cfg.gated && !g.a) || w.b.cfg.blockDirect || (w.b.cfg.gated && !g.b);
    EndpointsMapping(peer, key.destination);
    if k :| HasEndpoint(peer, k, key.destination) {
      forall k' | HasEndpoint(peer, k', key.destination) ensures k' == k { }
      SentIsSeen(w, side, key, k);
      ReachesSmoothly(w, side, key, k, w');
    }
    hide Step, Shut, HasEndpoint, Reaches, WorldInv, NatInv;
  }

  lemma ReachesSmoothly(w: World, side: Side, key: Key, k: Key, w': World)
    requires key in Of(w, side).mappings && |Of(w, side).mappings[key].pending| > 0
    requires HasEndpoint(Of(w, side.Other()), k, key.destination) && Smooth(Of(w, side.Other()).cfg)
    requires SeenFrom(Popped(w, side, key), Sent(w, side, key, k)) == Sent(w, side, key, k).source
    ensures Reaches(w, side, key, k, w') ==>
      var v, f := Popped(w, side, key), Sent(w, side, key, k);
      w' == v.(trace := w'.trace,
               deliveries := w.deliveries + if Of(w, side.Other()).cfg.strictFiltering && k.destination != f.source then []
                                            else [Delivery(f, f.source)])
  {
    var v, f := Popped(w, side, key), Sent(w, side, key, k);
    if Reaches(w, side, key, k, w') && !(Of(w, side.Other()).cfg.strictFiltering && k.destination != f.source) {
      var x :| FateOf(Of(w, side.Other()), x) && Passed(v, f, x, w');
      SmoothPasses(v, f, x, w');
    }
    hide SeenFrom, Passed, FateOf;
  }

  // ----- strangers, and what was put off -----

  /**
   A datagram from outside that reaches a public port is admitted exactly when it comes from where that port's mapping
   points; the client sees it come from its own public endpoint.
   */
  lemma ArriveOutcome(w: World, side: Side, port: int, source: Endpoint, data: Bytes, g: Gates, k: Key)
    requires WorldInv(w) && Enabled(w, Arrive(side, port, source, data, g))
    requires HasEndpoint(Of(w, side), k, Endpoint(Of(w, side).cfg.publicIp, port))
    ensures PeersKnown(w) && FlightsKnown(w)
    ensures var n, f, w' := Of(w, side), Flight(side, k, data, source, None, 0), Step(w, Arrive(side, port, source, data, g));
      && SeenFrom(w, f) == Endpoint(n.cfg.publicIp, port)
      && if source == k.destination then exists x :: FateOf(n, x) && Passed(w, f, x, w')
         else w' == w.(trace := w.trace + [DataPlane(side, FilterDrop)])
  {
    WorldInvKnows(w);
    WorldTables(w);
    var n, peer, f := Of(w, side), Of(w, side.Other()), Flight(side, k, data, source, None, 0);
    EndpointsMapping(n, Endpoint(n.cfg.publicIp, port));
    EndpointsMapping(peer, source);
    assert !OwnsPublicEndpoint(peer, source);
    AdmitPasses(w, f);
    hide WorldInv, NatInv, Admit, FateOf, Passed;
  }

  /** Some mapping has every port that is open to strangers. */
  lemma OpenPortHasMapping(w: World, side: Side, port: int) returns (k: Key)
    requires WorldInv(w) && port in Of(w, side).forwarders
    ensures HasEndpoint(Of(w, side), k, Endpoint(Of(w, side).cfg.publicIp, port))
  {
    WorldTables(w);
    EndpointsMapping(Of(w, side), Endpoint(Of(w, side).cfg.publicIp, port));
    hide WorldInv, NatInv;
    k :| HasEndpoint(Of(w, side), k, Endpoint(Of(w, side).cfg.publicIp, port));
  }

  /** What was put off is handed over when its time comes, once, and a routed datagram still seen from its sender. */
  lemma LandOutcome(w: World, index: nat)
    requires WorldInv(w) && index < |w.flights|
    ensures PeersKnown(w) && FlightsKnown(w)
    ensures var f, w' := w.flights[index], Step(w, Land(index));
      && w' == w.(trace := w.trace + [DataPlane(f.receiver, Delivered)], flights := w.flights[..index] + w.flights[index + 1..],
                  deliveries := w.deliveries + [Delivery(f, SeenFrom(w, f))])
      && (f.via.Some? ==> SeenFrom(w, f) == f.source)
  {
    WorldInvKnows(w);
    WorldTables(w);
    var f := w.flights[index];
    assert FlightOk(w, f);
    var v := w.(flights := w.flights[..index] + w.flights[index + 1..]);
    if f.via.Some? { assert HasEndpoint(Of(w, f.receiver.Other()), f.via.value, f.source); }
    hide WorldInv, NatInv;
    DeliverHands(v, f);
    SeesTheSame(w, v, f);
    hide Deliver, SeenFrom;
  }
}
