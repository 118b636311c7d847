/** What holds in every run of the two NATs, whatever the traffic, the binds, the faults and the gates do. */
module WorldSafety {
  import opened PortRing
  import opened NatModel
  import opened NatTable
  import opened NatWorld
  import opened StunCodec
  import opened Wrappers

  /** Two bound mappings, one on each NAT, each pointing at the other's public endpoint. */
  ghost predicate Linked(w: World, side: Side, k: Key, k': Key) {
    var n, peer := Of(w, side), Of(w, side.Other());
    && k in n.mappings && k' in peer.mappings
    && n.mappings[k].bound && peer.mappings[k'].bound
    && k.destination == MappingEndpoint(peer, k') && k'.destination == MappingEndpoint(n, k)
  }

  ghost function PairOf(w: World, side: Side, k: Key, k': Key): (Endpoint, Endpoint)
    requires k in Of(w, side).mappings && k' in Of(w, side.Other()).mappings
  {
    SortPair(MappingEndpoint(Of(w, side), k), MappingEndpoint(Of(w, side.Other()), k'))
  }

  ghost predicate Separate(w: World) {
    && (forall p | p in w.a.forwarders :: !OwnsPublicEndpoint(w.b, PublicEndpoint(w.a, p)))
    && (forall c | c in w.a.clientSockets || c in w.b.clientSockets :: Outside(w, c))
  }

  /** A recorded pair is mutual; a mutual pair whose two mappings have been reported is recorded. */
  ghost predicate PairsOk(w: World) {
    && (forall pair | pair in w.pairs :: exists k, k' :: Linked(w, SideA, k, k') && pair == PairOf(w, SideA, k, k'))
    && (forall k, k' | Linked(w, SideA, k, k') && w.a.mappings[k].reported && w.b.mappings[k'].reported ::
          PairOf(w, SideA, k, k') in w.pairs)
  }

  /** An admitted datagram came from a source its filter accepts; a routed one from the mapping it names. */
  ghost predicate FlightOk(w: World, f: Flight) {
    var n, peer := Of(w, f.receiver), Of(w, f.receiver.Other());
    && f.key in n.mappings && n.mappings[f.key].bound
    && (n.cfg.strictFiltering ==> f.source == f.key.destination)
    && (f.via.Some? ==>
          && f.via.value in peer.mappings && peer.mappings[f.via.value].reported && peer.mappings[f.via.value].bound
          && f.source == MappingEndpoint(peer, f.via.value)
          && f.via.value.destination == MappingEndpoint(n, f.key))
  }

  ghost predicate DeliveryOk(w: World, d: Delivery) {
    FlightOk(w, d.flight) && (d.flight.via.Some? ==> d.seenFrom == d.flight.source)
  }

  ghost predicate TrafficOk(w: World) {
    && (forall f | f in w.flights :: FlightOk(w, f))
    && (forall d | d in w.deliveries :: DeliveryOk(w, d))
  }

  ghost predicate WorldInv(w: World) {
    && NatInv(w.a) && NatInv(w.b)
    && Separate(w) && PairsOk(w) && TrafficOk(w)
  }

  ghost predicate NoNewReports(n: NatState, n': NatState) {
    forall k | k in n'.mappings && n'.mappings[k].reported :: k in n.mappings && n.mappings[k].reported
  }

  lemma WorldInvKnows(w: World)
    requires WorldInv(w)
    ensures PeersKnown(w) && FlightsKnown(w)
  {
  }

  lemma LinkedPersists(w: World, w': World, k: Key, k': Key)
    requires Continues(w.a, w'.a) && Continues(w.b, w'.b)
    requires Linked(w, SideA, k, k')
    ensures Linked(w', SideA, k, k') && PairOf(w', SideA, k, k') == PairOf(w, SideA, k, k')
  {
    hide AllocContinues;
  }

  lemma FlightPersists(w: World, w': World, f: Flight)
    requires Continues(w.a, w'.a) && Continues(w.b, w'.b) && FlightOk(w, f)
    ensures FlightOk(w', f)
  {
    hide AllocContinues;
  }

  lemma PairsPersist(w: World, w': World)
    requires Continues(w.a, w'.a) && Continues(w.b, w'.b) && w'.pairs == w.pairs && PairsOk(w)
    requires NoNewReports(w.a, w'.a) && NoNewReports(w.b, w'.b)
    requires Bound(w.a) && Bound(w.b)
    ensures PairsOk(w')
  {
    hide AllocContinues;
    forall pair | pair in w'.pairs ensures exists k, k' :: Linked(w', SideA, k, k') && pair == PairOf(w', SideA, k, k') {
      var k, k' :| Linked(w, SideA, k, k') && pair == PairOf(w, SideA, k, k');
      LinkedPersists(w, w', k, k');
    }
    forall k, k' | Linked(w', SideA, k, k') && w'.a.mappings[k].reported && w'.b.mappings[k'].reported
      ensures PairOf(w', SideA, k, k') in w'.pairs
    {
      assert w.a.mappings[k].bound && w.b.mappings[k'].bound;
      assert Linked(w, SideA, k, k');
    }
  }

  lemma TrafficPersists(w: World, w': World)
    requires Continues(w.a, w'.a) && Continues(w.b, w'.b) && TrafficOk(w)
    requires w'.flights == w.flights && w'.deliveries == w.deliveries
    ensures TrafficOk(w')
  {
    hide Continues, FlightOk;
    forall f | f in w'.flights ensures FlightOk(w', f) { FlightPersists(w, w', f); }
    forall d | d in w'.deliveries ensures DeliveryOk(w', d) { FlightPersists(w, w', d.flight); }
  }

  /** One NAT moves on, reporting nothing. */
  lemma SideMoves(w: World, side: Side, n': NatState)
    requires WorldInv(w) && NatInv(n') && Continues(Of(w, side), n') && NoNewReports(Of(w, side), n')
    requires Separate(With(w, side, n'))
    ensures WorldInv(With(w, side, n'))
  {
    var w' := With(w, side, n');
    hide Sound, Accounted, Separate, Continues;
    ContinuesReflexive(Of(w, side.Other()));
    hide NatInv, PairsOk, TrafficOk;
    assert Bound(w.a) && Bound(w.b) by { InvBound(w.a); InvBound(w.b); }
    hide Bound;
    PairsPersist(w, w');
    TrafficPersists(w, w');
  }

  lemma InvBound(n: NatState)
    requires NatInv(n)
    ensures Bound(n) && Indexed(n)
  {
  }

  /** Nothing moves but the trace. */
  lemma OnlyTraceMoves(w: World, w': World)
    requires WorldInv(w) && w' == w.(trace := w'.trace)
    ensures WorldInv(w')
  {
    hide Separate, PairsOk, TrafficOk;
    ContinuesReflexive(w.a);
    ContinuesReflexive(w.b);
    InvBound(w.a);
    InvBound(w.b);
    hide NatInv, Continues, Bound, Indexed;
    PairsPersist(w, w');
    TrafficPersists(w, w');
    SeparateFrame(w, w');
  }

  lemma SeparateFrame(w: World, w': World)
    requires Separate(w) && w'.a == w.a && w'.b == w.b
    ensures Separate(w')
  {
  }

  // ----- ingress -----

  /** An operation on the way in binds nothing, reports nothing and remembers at most the client. */
  ghost predicate Ingress(n: NatState, n': NatState, client: Endpoint) {
    && n'.cfg == n.cfg && n'.forwarders == n.forwarders
    && n'.clientSockets <= n.clientSockets + {client} && NoNewReports(n, n')
  }

  lemma MappingForIngress(n: NatState, key: Key, client: Endpoint)
    ensures Ingress(n, MappingFor(n, key).state, client)
  {
    hide Allocate1;
  }

  lemma OpenPeerIngress(n: NatState, key: Key)
    requires Sound(n)
    ensures Ingress(n, OpenPeer(n, key).state, key.client)
  {
    hide Sound;
    InjectNoisePays(n, key.client);
    hide InjectNoise;
  }

  lemma EnqueueIngress(n: NatState, key: Key, data: Bytes)
    requires key in n.mappings
    ensures Ingress(n, Enqueue(n, key, data).state, key.client)
  {
  }

  lemma IngressTransitive(n: NatState, n': NatState, n'': NatState, client: Endpoint)
    requires Ingress(n, n', client) && Ingress(n', n'', client)
    ensures Ingress(n, n'', client)
  {
  }

  lemma MapAndQueueIngress(n: NatState, key: Key, data: Bytes)
    ensures Ingress(n, MapAndQueue(n, key, data).state, key.client)
  {
    hide MappingFor, Enqueue, Ingress;
    MappingForIngress(n, key, key.client);
    MappingForHolds(n, key);
    var mapped := MappingFor(n, key);
    if !mapped.raised {
      EnqueueIngress(mapped.state, key, data);
      IngressTransitive(n, mapped.state, Enqueue(mapped.state, key, data).state, key.client);
    }
  }

  lemma TranslateOutboundIngress(n: NatState, client: Endpoint, destination: Endpoint, data: Bytes)
    requires Sound(n)
    ensures Ingress(n, TranslateOutbound(n, client, destination, data).state, client)
  {
    hide Sound, MapAndQueue, OpenPeer, Ingress;
    var key := Key(client, destination);
    OpenPeerIngress(n, key);
    var start := if key in n.mappings then Out(n, [], false) else OpenPeer(n, key);
    if !start.raised {
      MapAndQueueIngress(start.state, key, data);
      if key !in n.mappings { IngressTransitive(n, start.state, MapAndQueue(start.state, key, data).state, client); }
    }
  }

  lemma MappingForHolds(n: NatState, key: Key)
    ensures !MappingFor(n, key).raised ==> key in MappingFor(n, key).state.mappings
  {
    hide Allocate1;
  }

  lemma CaptureEgressIngress(n: NatState, client: Endpoint, destination: Endpoint, data: Bytes)
    requires NatInv(n)
    ensures Ingress(n, CaptureEgress(n, client, destination, data).state, client)
  {
    var mid := RecordClient(n, client);
    assert Ingress(n, mid, client);
    RecordClientKeeps(n, client);
    assert Sound(mid);
    hide NatInv, Sound, TranslateOutbound, HandleStunRequest, Continues, Ingress, ParseBindingRequest;
    if destination in n.cfg.observers {
      HandleStunRequestIngress(mid, client, destination);
      IngressTransitive(n, mid, HandleStunRequest(mid, client, destination).state, client);
    } else {
      TranslateOutboundIngress(mid, client, destination, data);
      IngressTransitive(n, mid, TranslateOutbound(mid, client, destination, data).state, client);
    }
  }

  lemma HandleStunRequestIngress(n: NatState, client: Endpoint, observer: Endpoint)
    ensures Ingress(n, HandleStunRequest(n, client, observer).state, client)
  {
    MappingForIngress(CountMeasurement(n, client), Key(client, observer), client);
    hide MappingFor;
  }

  lemma IngressKeeps(w: World, side: Side, o: Out, client: Endpoint)
    requires WorldInv(w) && NatInv(o.state) && Continues(Of(w, side), o.state)
    requires Ingress(Of(w, side), o.state, client)
    requires Outside(w, client) || o.state.clientSockets == Of(w, side).clientSockets
    ensures WorldInv(Apply(w, side, o))
  {
    hide NatInv, PairsOk, TrafficOk;
    assert Separate(With(w, side, o.state)) by { hide Continues; }
    hide Separate, Continues, Ingress;
    SideMoves(w, side, o.state);
    OnlyTraceMoves(With(w, side, o.state), Apply(w, side, o));
  }

  lemma StunKeeps(w: World, side: Side, client: Endpoint, observer: Endpoint)
    requires WorldInv(w) && Enabled(w, Stun(side, client, observer))
    ensures WorldInv(Apply(w, side, HandleStunRequest(Of(w, side), client, observer)))
  {
    var n := Of(w, side);
    HandleStunRequestKeeps(n, client, observer);
    HandleStunRequestIngress(n, client, observer);
    hide WorldInv, HandleStunRequest, NatInv;
    IngressKeeps(w, side, HandleStunRequest(n, client, observer), client);
  }

  lemma EgressKeeps(w: World, side: Side, client: Endpoint, destination: Endpoint, data: Bytes)
    requires WorldInv(w) && Enabled(w, Egress(side, client, destination, data))
    ensures WorldInv(Apply(w, side, CaptureEgress(Of(w, side), client, destination, data)))
  {
    var n := Of(w, side);
    CaptureEgressKeeps(n, client, destination, data);
    CaptureEgressIngress(n, client, destination, data);
    hide WorldInv, CaptureEgress, NatInv;
    IngressKeeps(w, side, CaptureEgress(n, client, destination, data), client);
  }

  // ----- binds -----

  lemma BindOkKeeps(w: World, side: Side, key: Key)
    requires WorldInv(w) && Enabled(w, BindOk(side, key))
    ensures WorldInv(With(w, side, BindMapping(Of(w, side), key)))
  {
    var n := Of(w, side);
    BindKeeps(n, key);
    hide NatInv, PairsOk, TrafficOk;
    assert Separate(With(w, side, BindMapping(n, key)));
    hide Separate;
    SideMoves(w, side, BindMapping(n, key));
  }

  lemma ReassignIngress(n: NatState, key: Key)
    requires key in n.mappings
    ensures var n' := ReassignMappingPort(n, key).state; Ingress(n, n', key.client) && n'.clientSockets == n.clientSockets
  {
    hide Allocate1;
  }

  lemma BindBusyKeeps(w: World, side: Side, key: Key)
    requires WorldInv(w) && Enabled(w, BindBusy(side, key))
    ensures WorldInv(Apply(w, side, ReassignMappingPort(Of(w, side), key)))
  {
    ReassignKeeps(Of(w, side), key);
    ReassignIngress(Of(w, side), key);
    hide WorldInv, NatInv, Continues, ReassignMappingPort, Ingress;
    IngressKeeps(w, side, ReassignMappingPort(Of(w, side), key), key.client);
  }

  // ----- reports -----

  lemma ReportTableKeeps(n: NatState, key: Key)
    requires NatInv(n) && key in n.mappings && n.mappings[key].bound
    ensures var n' := n.(mappings := n.mappings[key := n.mappings[key].(reported := true)]);
      NatInv(n') && Continues(n, n')
  {
    var n' := n.(mappings := n.mappings[key := n.mappings[key].(reported := true)]);
    SamePeersKeepAccount(n, n') by { hide Sound; }
    ReportTableSound(n, n', key);
    ContinuesReflexive(n);
    hide Sound, Accounted, AllocContinues;
  }

  lemma ReportTableSound(n: NatState, n': NatState, key: Key)
    requires Sound(n) && key in n.mappings && n.mappings[key].bound
    requires n' == n.(mappings := n.mappings[key := n.mappings[key].(reported := true)])
    ensures Sound(n')
  {
    hide OnWalk;
  }

  /** The other half of a mutual pair, whichever NAT looks for it. */
  lemma LinkedIsPeerMapping(w: World, side: Side, k: Key, k': Key)
    requires WorldInv(w) && k in Of(w, side).mappings && Of(w, side).mappings[k].bound
    ensures Linked(w, side, k, k') <==>
      PeerMapping(w, side, k.destination) == Some(k') && k'.destination == MappingEndpoint(Of(w, side), k)
  {
    hide PairsOk, TrafficOk, Separate, Accounted, OnPorts, Queued;
  }

  lemma SortPairCommutes(x: Endpoint, y: Endpoint)
    ensures SortPair(x, y) == SortPair(y, x)
  {
  }

  lemma LinkedIsSymmetric(w: World, side: Side, k: Key, k': Key)
    ensures Linked(w, side, k, k') <==> Linked(w, side.Other(), k', k)
    ensures Linked(w, side, k, k') ==> PairOf(w, side, k, k') == PairOf(w, side.Other(), k', k)
  {
    if Linked(w, side, k, k') {
      SortPairCommutes(MappingEndpoint(Of(w, side), k), MappingEndpoint(Of(w, side.Other()), k'));
    }
  }

  /** `PairsOk`, read from either side. */
  lemma PairsOkFrom(w: World, side: Side)
    requires PairsOk(w)
    ensures forall k, k' |
        Linked(w, side, k, k') && Of(w, side).mappings[k].reported && Of(w, side.Other()).mappings[k'].reported ::
      PairOf(w, side, k, k') in w.pairs
  {
    forall k, k' | Linked(w, side, k, k') && Of(w, side).mappings[k].reported && Of(w, side.Other()).mappings[k'].reported
      ensures PairOf(w, side, k, k') in w.pairs
    {
      LinkedIsSymmetric(w, side, k, k');
    }
  }

  ghost function Reported(w: World, side: Side, key: Key): World
    requires key in Of(w, side).mappings
  {
    var n := Of(w, side);
    With(w, side, n.(mappings := n.mappings[key := n.mappings[key].(reported := true)]))
  }

  lemma ReportedLinks(w: World, side: Side, key: Key, k: Key, k': Key)
    requires key in Of(w, side).mappings
    ensures Linked(Reported(w, side, key), SideA, k, k') <==> Linked(w, SideA, k, k')
    ensures Linked(w, SideA, k, k') ==> PairOf(Reported(w, side, key), SideA, k, k') == PairOf(w, SideA, k, k')
  {
  }

  /** After a report, every mutual pair that includes the reported mapping is recorded, and nothing else is new. */
  lemma ReportRecordsPair(w: World, side: Side, key: Key)
    requires WorldInv(w) && key in Of(w, side).mappings && Of(w, side).mappings[key].bound
    requires !Of(w, side).mappings[key].reported
    ensures var w' := ReportBound(w, side, key);
      && w' == Reported(w, side, key).(pairs := w'.pairs, trace := w'.trace)
      && w.pairs <= w'.pairs
      && (forall k' | Linked(w, side, key, k') :: PairOf(w, side, key, k') in w'.pairs)
      && (forall pair | pair in w'.pairs - w.pairs :: exists k' :: Linked(w, side, key, k') && pair == PairOf(w, side, key, k'))
  {
    var w1 := Reported(w, side, key);
    assert PeerMapping(w1, side, key.destination) == PeerMapping(w, side, key.destination);
    match PeerMapping(w, side, key.destination)
    case None =>
      forall k' ensures !Linked(w, side, key, k') { LinkedIsPeerMapping(w, side, key, k'); }
    case Some(peer) =>
      forall k' ensures Linked(w, side, key, k') ==> k' == peer && peer.destination == MappingEndpoint(Of(w, side), key) {
        LinkedIsPeerMapping(w, side, key, k');
      }
      LinkedIsPeerMapping(w, side, key, peer);
      hide WorldInv;
  }

  lemma ReportKeepsPairs(w: World, side: Side, key: Key)
    requires WorldInv(w) && key in Of(w, side).mappings && Of(w, side).mappings[key].bound
    requires !Of(w, side).mappings[key].reported
    ensures PairsOk(ReportBound(w, side, key))
  {
    ReportRecordsPair(w, side, key);
    assert PairsOk(w);
    hide WorldInv, ReportBound;
    ReportedPairsAreMutual(w, side, key, ReportBound(w, side, key));
    MutualPairsAreReported(w, side, key, ReportBound(w, side, key));
  }

  lemma ReportedPairsAreMutual(w: World, side: Side, key: Key, w': World)
    requires PairsOk(w) && key in Of(w, side).mappings
    requires w' == Reported(w, side, key).(pairs := w'.pairs, trace := w'.trace)
    requires forall pair | pair in w'.pairs - w.pairs :: exists k' :: Linked(w, side, key, k') && pair == PairOf(w, side, key, k')
    ensures forall pair | pair in w'.pairs :: exists k, k' :: Linked(w', SideA, k, k') && pair == PairOf(w', SideA, k, k')
  {
    forall pair | pair in w'.pairs ensures exists k, k' :: Linked(w', SideA, k, k') && pair == PairOf(w', SideA, k, k') {
      if pair in w.pairs {
        var k, k' :| Linked(w, SideA, k, k') && pair == PairOf(w, SideA, k, k');
        ReportedLinks(w, side, key, k, k');
        assert Linked(w', SideA, k, k');
      } else {
        assert pair in w'.pairs - w.pairs;
        var k' :| Linked(w, side, key, k') && pair == PairOf(w, side, key, k');
        LinkedIsSymmetric(w, side, key, k');
        if side.SideA? {
          ReportedLinks(w, side, key, key, k');
          assert Linked(w', SideA, key, k');
        } else {
          ReportedLinks(w, side, key, k', key);
          assert Linked(w', SideA, k', key);
        }
      }
    }
  }

  lemma MutualPairsAreReported(w: World, side: Side, key: Key, w': World)
    requires PairsOk(w) && key in Of(w, side).mappings && w.pairs <= w'.pairs
    requires w' == Reported(w, side, key).(pairs := w'.pairs, trace := w'.trace)
    requires forall k' | Linked(w, side, key, k') :: PairOf(w, side, key, k') in w'.pairs
    ensures forall k, k' | Linked(w', SideA, k, k') && w'.a.mappings[k].reported && w'.b.mappings[k'].reported ::
      PairOf(w', SideA, k, k') in w'.pairs
  {
    forall k, k' | Linked(w', SideA, k, k') && w'.a.mappings[k].reported && w'.b.mappings[k'].reported
      ensures PairOf(w', SideA, k, k') in w'.pairs
    {
      ReportedLinks(w, side, key, k, k');
      LinkedIsSymmetric(w, SideA, k, k');
    }
  }

  lemma ReportedKeeps(w: World, side: Side, key: Key)
    requires WorldInv(w) && key in Of(w, side).mappings && Of(w, side).mappings[key].bound
    ensures var w1 := Reported(w, side, key);
      && NatInv(w1.a) && NatInv(w1.b) && Continues(w.a, w1.a) && Continues(w.b, w1.b) && Separate(w1)
  {
    hide PairsOk, TrafficOk;
    assert Separate(Reported(w, side, key)) by { hide NatInv; }
    ReportTableKeeps(Of(w, side), key);
    ContinuesReflexive(Of(w, side.Other()));
    hide NatInv, Continues, Separate;
  }

  lemma ReportKeeps(w: World, side: Side, key: Key)
    requires WorldInv(w) && Enabled(w, Report(side, key))
    ensures WorldInv(ReportBound(w, side, key))
  {
    var w' := ReportBound(w, side, key);
    if !Of(w, side).mappings[key].reported {
      ReportedKeeps(w, side, key);
      ReportKeepsPairs(w, side, key);
      ReportRecordsPair(w, side, key);
      assert TrafficOk(w);
      hide PairsOk, ReportBound, Linked, NatInv, Continues, Separate, WorldInv;
      TrafficPersists(w, w');
      hide TrafficOk;
      SeparateFrame(Reported(w, side, key), w');
      assert WorldInv(w') by { WorldInvIs(w'); }
    }
  }

  lemma WorldInvIs(w: World)
    requires NatInv(w.a) && NatInv(w.b) && Separate(w) && PairsOk(w) && TrafficOk(w)
    ensures WorldInv(w)
  {
    hide NatInv, Separate, PairsOk, TrafficOk;
  }

  // ----- traffic -----

  lemma TrafficGrows(w: World, w': World)
    requires WorldInv(w) && w'.a == w.a && w'.b == w.b && w'.pairs == w.pairs
    requires forall f | f in w'.flights :: f in w.flights || FlightOk(w, f)
    requires forall d | d in w'.deliveries :: d in w.deliveries || DeliveryOk(w, d)
    ensures WorldInv(w')
  {
    var w0 := w'.(flights := w.flights, deliveries := w.deliveries);
    assert TrafficOk(w);
    OnlyTraceMoves(w, w0);
    hide Linked, NatInv;
    assert TrafficOk(w') by {
      forall f | FlightOk(w, f) ensures FlightOk(w', f) { }
      forall d | DeliveryOk(w, d) ensures DeliveryOk(w', d) { }
      hide FlightOk;
    }
    hide TrafficOk, FlightOk, DeliveryOk;
    SeparateFrame(w0, w');
    hide Separate;
    assert PairsOk(w') by {
      forall k, k' ensures Linked(w', SideA, k, k') == Linked(w0, SideA, k, k') { LinkedFrame(w0, w', k, k'); }
    }
  }

  lemma LinkedFrame(w: World, w': World, k: Key, k': Key)
    requires w'.a == w.a && w'.b == w.b
    ensures Linked(w', SideA, k, k') == Linked(w, SideA, k, k')
  {
  }

  /** A routed datagram is handed over by the very socket it was sent from. */
  lemma RoutedIsSeenFromSource(w: World, f: Flight)
    requires WorldInv(w) && FlightOk(w, f) && f.via.Some?
    ensures PeerMapping(w, f.receiver, f.source) == Some(f.via.value)
  {
    hide PairsOk, TrafficOk, Separate, OnPorts, Queued, Accounted;
  }

  lemma DeliverKeeps(w: World, f: Flight)
    requires WorldInv(w) && FlightOk(w, f)
    ensures PeersKnown(w) && var w' := Deliver(w, f); WorldInv(w') && w'.a == w.a && w'.b == w.b
  {
    WorldInvKnows(w);
    if f.via.Some? { RoutedIsSeenFromSource(w, f); }
    hide WorldInv;
    TrafficGrows(w, Deliver(w, f));
  }

  lemma CursorKeeps(n: NatState, cursor: nat)
    requires NatInv(n)
    ensures var n' := n.(alloc := n.alloc.(cursor := cursor)); NatInv(n') && Continues(n, n')
  {
    var n' := n.(alloc := n.alloc.(cursor := cursor));
    SamePeersKeepAccount(n, n') by { hide Sound; }
    assert forall p :: OnWalk(n'.alloc, p) == OnWalk(n.alloc, p);
    assert n.alloc.mode.StepMode? ==> OnWalk(n.alloc, n.alloc.nextPort);
    hide Accounted, OnWalk, Indexed, Bound, Queued;
    CursorKeepsTable(n, n', cursor);
  }

  lemma CursorKeepsTable(n: NatState, n': NatState, cursor: nat)
    requires Indexed(n) && Bound(n) && Queued(n) && n' == n.(alloc := n.alloc.(cursor := cursor))
    ensures Indexed(n') && Bound(n') && Queued(n')
  {
  }

  lemma CursorMoves(w: World, side: Side, cursor: nat)
    requires WorldInv(w)
    ensures WorldInv(MoveCursor(w, side, cursor))
  {
    CursorKeeps(Of(w, side), cursor);
    hide NatInv, PairsOk, TrafficOk, Continues;
    assert Separate(MoveCursor(w, side, cursor));
    hide Separate;
    SideMoves(w, side, Of(MoveCursor(w, side, cursor), side));
  }

  lemma FlightOfMovedCursor(w: World, f: Flight, cursor: nat)
    requires FlightOk(w, f)
    ensures FlightOk(MoveCursor(w, f.receiver, cursor), f)
  {
  }

  lemma ApplyFaultsKeeps(w: World, f: Flight, faults: Faults)
    requires WorldInv(w) && FlightOk(w, f)
    ensures PeersKnown(w) && WorldInv(ApplyFaults(w, f, faults))
  {
    WorldInvKnows(w);
    var again := f.(copy := 1);
    assert FlightOk(w, again);
    if faults.lost {
      OnlyTraceMoves(w, ApplyFaults(w, f, faults));
    } else if faults.late {
      hide WorldInv, FlightOk;
      TrafficGrows(w, ApplyFaults(w, f, faults));
    } else {
      var w0 := Emit(w, [DataPlane(f.receiver, Admitted)]);
      OnlyTraceMoves(w, w0);
      assert FlightOk(w0, f);
      DeliverKeeps(w0, f);
      var once := Deliver(w0, f);
      if faults.twice {
        var w2 := Emit(once, [DataPlane(f.receiver, Duplicated)]);
        OnlyTraceMoves(once, w2);
        assert FlightOk(w2, again);
        hide WorldInv, FlightOk;
        DeliverKeeps(w2, again);
      }
    }
  }

  lemma AdmitKeeps(w: World, f: Flight)
    requires WorldInv(w) && FlightOk(w, f)
    ensures PeersKnown(w) && WorldInv(Admit(w, f))
  {
    WorldInvKnows(w);
    var faults := DrawFaults(Of(w, f.receiver));
    CursorMoves(w, f.receiver, faults.cursor);
    FlightOfMovedCursor(w, f, faults.cursor);
    ApplyFaultsKeeps(MoveCursor(w, f.receiver, faults.cursor), f, faults);
    hide *;
    hide ApplyFaults;
  }

  /** What a caller of `HandlePublicDatagram` says about the datagram's origin. */
  ghost predicate OriginOk(w: World, side: Side, port: int, source: Endpoint, via: Option<Key>) {
    var peer := Of(w, side.Other());
    via.Some? ==>
      && via.value in peer.mappings && peer.mappings[via.value].reported && peer.mappings[via.value].bound
      && source == MappingEndpoint(peer, via.value)
      && via.value.destination == PublicEndpoint(Of(w, side), port)
  }

  lemma HandlePublicDatagramKeeps(w: World, side: Side, port: int, data: Bytes, source: Endpoint, via: Option<Key>, g: Gates)
    requires WorldInv(w) && port in Of(w, side).forwarders
    requires OwnerOfClient(w, source).None? && OriginOk(w, side, port, source, via)
    ensures PeersKnown(w) && WorldInv(HandlePublicDatagram(w, side, port, data, source, via, g))
  {
    WorldInvKnows(w);
    InvBound(Of(w, side));
    var key := Of(w, side).mappingByPort[port];
    var f := Flight(side, key, data, source, via, 0);
    if InboundAllowed(w, side, key, source) {
      assert FlightOk(w, f);
      hide WorldInv, FlightOk;
      AdmitKeeps(w, f);
    } else {
      OnlyTraceMoves(w, HandlePublicDatagram(w, side, port, data, source, via, g));
    }
  }

  lemma BoundIsNoClient(w: World, side: Side, key: Key)
    requires WorldInv(w) && key in Of(w, side).mappings && Of(w, side).mappings[key].bound
    ensures OwnerOfClient(w, MappingEndpoint(Of(w, side), key)).None?
  {
    InvBound(Of(w, side));
    hide NatInv;
  }

  lemma RouteTranslatedKeeps(w: World, side: Side, key: Key, d: Datagram, g: Gates)
    requires WorldInv(w) && key in Of(w, side).mappings && Of(w, side).mappings[key].reported
    requires d.destination == key.destination
    ensures PeersKnown(w) && WorldInv(RouteTranslated(w, side, key, d, g))
  {
    WorldInvKnows(w);
    InvBound(Of(w, side));
    BoundIsNoClient(w, side, key);
    var n, peer := Of(w, side), Of(w, side.Other());
    hide WorldInv;
    if !Closed(n.cfg, GateOpen(g, side)) && OwnsPublicEndpoint(peer, d.destination) && !Closed(peer.cfg, GateOpen(g, side.Other())) {
      HandlePublicDatagramKeeps(w, side.Other(), d.destination.port, d.data, MappingEndpoint(n, key), Some(key), g);
    } else {
      OnlyTraceMoves(w, RouteTranslated(w, side, key, d, g));
    }
  }

  lemma PopPendingKeeps(w: World, side: Side, key: Key)
    requires WorldInv(w) && key in Of(w, side).mappings && |Of(w, side).mappings[key].pending| > 0
    ensures WorldInv(With(w, side, PopPending(Of(w, side), key)))
    ensures Of(w, side).mappings[key].pending[0].destination == key.destination
  {
    var n, n' := Of(w, side), PopPending(Of(w, side), key);
    QueueChangeKeeps(n, n', key);
    assert NoNewReports(n, n');
    assert Queued(n);
    hide NatInv, PairsOk, TrafficOk, Continues;
    assert Separate(With(w, side, n'));
    hide Separate;
    SideMoves(w, side, n');
  }

  // ----- runs -----

  lemma StepKeeps(w: World, e: Event)
    requires WorldInv(w) && Enabled(w, e)
    ensures PeersKnown(w) && FlightsKnown(w) && WorldInv(Step(w, e))
  {
    WorldInvKnows(w);
    match e
    case Stun(side, client, observer) => StunKeeps(w, side, client, observer);
    case Egress(side, client, destination, data) => EgressKeeps(w, side, client, destination, data);
    case BindOk(side, key) => BindOkKeeps(w, side, key);
    case BindBusy(side, key) => BindBusyKeeps(w, side, key);
    case Report(side, key) => ReportKeeps(w, side, key);
    case Flush(side, key, g) =>
      PopPendingKeeps(w, side, key);
      hide WorldInv;
      RouteTranslatedKeeps(With(w, side, PopPending(Of(w, side), key)), side, key, Of(w, side).mappings[key].pending[0], g);
    case Arrive(side, port, source, data, g) => HandlePublicDatagramKeeps(w, side, port, data, source, None, g);
    case Land(index) =>
      var w1 := w.(flights := w.flights[..index] + w.flights[index + 1..]);
      assert FlightOk(w, w.flights[index]);
      TrafficGrows(w, w1);
      assert FlightOk(w1, w.flights[index]);
      hide WorldInv, FlightOk;
      DeliverKeeps(w1, w.flights[index]);
  }

  /** A step loses no mapping, moves no bound mapping to another port, and forgets no report. */
  lemma StepContinues(w: World, e: Event)
    requires WorldInv(w) && Enabled(w, e)
    ensures PeersKnown(w) && FlightsKnown(w) && Continues(w.a, Step(w, e).a) && Continues(w.b, Step(w, e).b)
  {
    WorldInvKnows(w);
    ContinuesReflexive(w.a);
    ContinuesReflexive(w.b);
    match e
    case Stun(side, client, observer) =>
      HandleStunRequestKeeps(Of(w, side), client, observer);
      hide WorldInv, HandleStunRequest, Continues;
    case Egress(side, client, destination, data) =>
      CaptureEgressKeeps(Of(w, side), client, destination, data);
      hide WorldInv, CaptureEgress, Continues;
    case BindOk(side, key) =>
      BindKeeps(Of(w, side), key);
      hide WorldInv, BindMapping, Continues;
    case BindBusy(side, key) =>
      ReassignKeeps(Of(w, side), key);
      hide WorldInv, ReassignMappingPort, Continues;
    case Report(side, key) =>
      ReportedKeeps(w, side, key);
      if !Of(w, side).mappings[key].reported { ReportRecordsPair(w, side, key); }
      hide WorldInv, Continues;
    case Flush(side, key, g) =>
      hide WorldInv, Continues, RouteTranslated;
      FlushContinues(w, side, key, g);
    case Arrive(side, port, source, data, g) =>
      PublicContinues(w, side, port, data, source, None, g);
    case Land(index) =>
      hide WorldInv, Continues;
  }

  lemma FlushContinues(w: World, side: Side, key: Key, g: Gates)
    requires WorldInv(w) && Enabled(w, Flush(side, key, g))
    ensures PeersKnown(w)
    ensures var w' := Step(w, Flush(side, key, g)); Continues(w.a, w'.a) && Continues(w.b, w'.b)
  {
    WorldInvKnows(w);
    ContinuesReflexive(w.a);
    ContinuesReflexive(w.b);
    PopPendingKeeps(w, side, key);
    QueueChangeKeeps(Of(w, side), PopPending(Of(w, side), key), key);
    var w1 := With(w, side, PopPending(Of(w, side), key));
    hide WorldInv, Continues;
    RouteContinues(w1, side, key, Of(w, side).mappings[key].pending[0], g);
    ContinuesTransitive(w.a, w1.a, Step(w, Flush(side, key, g)).a);
    ContinuesTransitive(w.b, w1.b, Step(w, Flush(side, key, g)).b);
  }

  lemma PublicContinues(w: World, side: Side, port: int, data: Bytes, source: Endpoint, via: Option<Key>, g: Gates)
    requires WorldInv(w) && OwnerOfClient(w, source).None? && port in Of(w, side).forwarders
    ensures PeersKnown(w)
    ensures var w' := HandlePublicDatagram(w, side, port, data, source, via, g); Continues(w.a, w'.a) && Continues(w.b, w'.b)
  {
    WorldInvKnows(w);
    ContinuesReflexive(w.a);
    ContinuesReflexive(w.b);
    var cursor := DrawFaults(Of(w, side)).cursor;
    CursorKeeps(Of(w, side), cursor);
    hide WorldInv, Continues, DrawFaults;
  }

  lemma RouteContinues(w: World, side: Side, key: Key, d: Datagram, g: Gates)
    requires WorldInv(w) && key in Of(w, side).mappings && Of(w, side).mappings[key].reported
    ensures PeersKnown(w) && var w' := RouteTranslated(w, side, key, d, g); Continues(w.a, w'.a) && Continues(w.b, w'.b)
  {
    WorldInvKnows(w);
    ContinuesReflexive(w.a);
    ContinuesReflexive(w.b);
    InvBound(Of(w, side));
    BoundIsNoClient(w, side, key);
    hide WorldInv, Continues;
    if OwnsPublicEndpoint(Of(w, side.Other()), d.destination) {
      PublicContinues(w, side.Other(), d.destination.port, d.data, MappingEndpoint(Of(w, side), key), Some(key), g);
    }
    hide HandlePublicDatagram;
  }

  lemma StartInv(w: World)
    requires Start(w)
    ensures WorldInv(w)
  {
  }

  lemma {:induction false} RunKeeps(w: World, es: seq<Event>, w': World)
    requires WorldInv(w) && Runs(w, es, w')
    ensures WorldInv(w') && Continues(w.a, w'.a) && Continues(w.b, w'.b)
    decreases |es|
  {
    if es == [] {
      ContinuesReflexive(w.a);
      ContinuesReflexive(w.b);
    } else {
      var mid := Step(w, es[0]);
      StepKeeps(w, es[0]);
      StepContinues(w, es[0]);
      hide WorldInv, Continues, Step;
      RunKeeps(mid, es[1..], w');
      ContinuesTransitive(w.a, mid.a, w'.a);
      ContinuesTransitive(w.b, mid.b, w'.b);
    }
  }

  /**
   In every run: whatever a strictly filtering NAT hands to its client from the other NAT came over two
   mappings that point at each other, is seen from the sender's own public endpoint, and belongs to a recorded
   reciprocal pair as soon as the receiving mapping has been reported too.
   */
  lemma StrictDeliveryIsMutual(w: World, es: seq<Event>, w': World, d: Delivery)
    requires Start(w) && Runs(w, es, w')
    requires d in w'.deliveries && d.flight.via.Some? && Of(w', d.flight.receiver).cfg.strictFiltering
    ensures var side, key, sender := d.flight.receiver, d.flight.key, d.flight.via.value;
      && Linked(w', side, key, sender)
      && d.seenFrom == MappingEndpoint(Of(w', side.Other()), sender)
      && (Of(w', side).mappings[key].reported ==> PairOf(w', side, key, sender) in w'.pairs)
  {
    StartInv(w);
    RunKeeps(w, es, w');
    assert DeliveryOk(w', d) && FlightOk(w', d.flight);
    PairsOkFrom(w', d.flight.receiver);
  }

  /**
   In every run of both NATs, rebinds included: the port index is the inverse of the live mappings, noise ports belong
   to nobody, and while no allocation has failed the noise budgets and the per-client counters add up.
   */
  lemma TableInRuns(w: World, es: seq<Event>, w': World, side: Side)
    requires Start(w) && Runs(w, es, w')
    ensures var n := Of(w', side);
      && (forall p, k :: p in n.mappingByPort && n.mappingByPort[p] == k <==> k in n.mappings && !n.mappings[k].failed && n.mappings[k].port == p)
      && (forall p | p in n.noisePorts :: p !in n.mappingByPort)
      && (!n.exhausted ==>
            && |n.noisePorts| + n.initialNoiseRemaining + n.sweepNoiseRemaining == INITIAL_NOISE_BUDGET + n.cfg.sweepLimit
            && forall client :: Count(n.peerMappingCounts, client)
                 == |set k | k in n.mappings && k.client == client && k.destination !in n.cfg.observers|)
  {
    StartInv(w);
    RunKeeps(w, es, w');
    var n := Of(w', side);
    assert Indexed(n) && Accounted(n);
    forall client
      ensures PeersOf(n, client) == set k | k in n.mappings && k.client == client && k.destination !in n.cfg.observers
    {
    }
  }

  /** From any point of a run on, a bound mapping keeps its port and a mapping is never forgotten. */
  lemma BoundPortsStay(w: World, es: seq<Event>, mid: World, later: seq<Event>, w': World, side: Side, k: Key)
    requires Start(w) && Runs(w, es, mid) && Runs(mid, later, w')
    requires k in Of(mid, side).mappings
    ensures k in Of(w', side).mappings
    ensures Of(mid, side).mappings[k].bound ==>
      Of(w', side).mappings[k].bound && Of(w', side).mappings[k].port == Of(mid, side).mappings[k].port
  {
    StartInv(w);
    RunKeeps(w, es, mid);
    RunKeeps(mid, later, w');
  }
}
