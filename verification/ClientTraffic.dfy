/** What a client's datagram does at its own NAT: which mapping answers or queues it, on which port, and what is written. */
module ClientTraffic {
  import opened PortRing
  import opened NatModel
  import opened StunCodec
  import opened Wrappers

  /** The port is the first of at most 64512 draws that nobody has, and the generator has moved past it. */
  ghost predicate FirstFree(n: NatState, port: int, after: Allocator) {
    exists i: nat ::
      && i < 64512 && port == DrawAt(n.alloc, i) && after == AdvanceBy(n.alloc, i + 1)
      && port !in n.mappingByPort && port !in n.noisePorts
      && forall j: nat | j < i :: DrawAt(n.alloc, j) in n.mappingByPort || DrawAt(n.alloc, j) in n.noisePorts
  }

  ghost predicate NoneFree(n: NatState) {
    forall i: nat | i < 64512 :: DrawAt(n.alloc, i) in n.mappingByPort || DrawAt(n.alloc, i) in n.noisePorts
  }

  lemma AllocationIs(n: NatState)
    ensures Allocate1(n).Exhausted? <==> NoneFree(n)
    ensures Allocate1(n).Found? ==> FirstFree(n, Allocate1(n).port, Allocate1(n).rest)
  {
    FindUnusedIsFirst(n.alloc, Used(n), RING_SIZE);
    hide FindUnused, DrawAt, AdvanceBy;
    if Allocate1(n).Found? {
      var i :| 0 <= i < RING_SIZE && Allocate1(n) == Found(DrawAt(n.alloc, i), AdvanceBy(n.alloc, i + 1))
        && DrawAt(n.alloc, i) !in Used(n) && forall j | 0 <= j < i :: DrawAt(n.alloc, j) in Used(n);
      var k: nat := i;
      assert k < 64512 && Allocate1(n).port == DrawAt(n.alloc, k) && Allocate1(n).rest == AdvanceBy(n.alloc, k + 1);
      assert forall j: nat | j < k :: DrawAt(n.alloc, j) in n.mappingByPort || DrawAt(n.alloc, j) in n.noisePorts;
    }
  }

  /** `o` has the mapping for `key`: as it was, or new on the first free port; or there was none for it. */
  ghost predicate Maps(n: NatState, key: Key, o: Out) {
    if key in n.mappings then o == Out(n, [], false)
    else if NoneFree(n) then o.raised && o.rows == [] && o.state == n.(alloc := o.state.alloc, exhausted := true)
    else
      && !o.raised && key in o.state.mappings && FirstFree(n, o.state.mappings[key].port, o.state.alloc)
      && var port := o.state.mappings[key].port;
      && o.state == n.(alloc := o.state.alloc, mappings := n.mappings[key := Mapping(port, false, false, false, [])],
                       mappingByPort := n.mappingByPort[port := key])
      && o.rows == [MappingCreated(n.cfg.side, key, Endpoint(n.cfg.publicIp, port))]
  }

  lemma MappingForMaps(n: NatState, key: Key)
    ensures Maps(n, key, MappingFor(n, key))
  {
    AllocationIs(n);
    hide Allocate1, FirstFree, NoneFree;
  }

  /** A measurement: counted, and answered with the public endpoint of the client's mapping for that observer. */
  lemma StunAnswers(n: NatState, client: Endpoint, observer: Endpoint)
    ensures var o, key := HandleStunRequest(n, client, observer), Key(client, observer);
      var sample := (if client in n.measurements then n.measurements[client] else 0) + 1;
      var counted := n.(measurements := n.measurements[client := sample], clientSockets := n.clientSockets + {client});
      exists m ::
        && Maps(counted, key, m) && o.state == m.state && o.raised == m.raised
        && o.rows == m.rows + if m.raised then []
                              else [StunObserved(n.cfg.side, client, observer, sample, Endpoint(n.cfg.publicIp, m.state.mappings[key].port))]
  {
    var counted := CountMeasurement(n, client);
    MappingForMaps(counted, Key(client, observer));
    var m := MappingFor(counted, Key(client, observer));
    hide MappingFor, Maps;
    MapsHas(counted, Key(client, observer), m);
  }

  lemma MapsHas(n: NatState, key: Key, m: Out)
    requires Maps(n, key, m)
    ensures m.state.cfg == n.cfg && (!m.raised ==> key in m.state.mappings)
    ensures !m.raised && key !in n.mappings ==> m.state.mappings[key].pending == []
    ensures m.raised ==> m.rows == []
  {
    hide FirstFree, NoneFree;
  }

  /** The datagram is the last in its mapping's queue, unless 256 are waiting there already; nothing else changes. */
  ghost predicate Queues(n: NatState, key: Key, data: Bytes, o: Out)
    requires key in n.mappings
  {
    var m := n.mappings[key];
    if |m.pending| < 256 then
      o == Out(n.(mappings := n.mappings[key := m.(pending := m.pending + [Datagram(data, key.destination)])]), [], false)
    else o == Out(n, [QueueRejected(n.cfg.side, |data|)], false)
  }

  /** A datagram to a peer over a mapping that is there: it is queued, and nothing is allocated. */
  lemma KnownPeerQueues(n: NatState, key: Key, data: Bytes)
    requires key in n.mappings
    ensures Queues(n, key, data, TranslateOutbound(n, key.client, key.destination, data))
  {
  }

  /** The noise that comes before a client's next mapping, if the client is due for it: how much, and of which stage. */
  ghost predicate NoiseBefore(n: NatState, client: Endpoint, stage: Stage, amount: nat) {
    var before := if client in n.peerMappingCounts then n.peerMappingCounts[client] else 0;
    match stage
    case AfterMeasurement =>
      && before == 0 && client in n.measurements && n.measurements[client] > 0
      && amount == if n.cfg.consumeBeforePunch <= n.initialNoiseRemaining then n.cfg.consumeBeforePunch else n.initialNoiseRemaining
    case DuringSweep =>
      && before > 0 && n.cfg.sweepEvery > 0 && before % n.cfg.sweepEvery == 0
      && amount == if n.cfg.sweepCount <= n.sweepNoiseRemaining then n.cfg.sweepCount else n.sweepNoiseRemaining
  }

  /** `rows` are so many rows of consumed ports, of one client and stage. */
  ghost predicate ConsumedRows(n: NatState, client: Endpoint, stage: Stage, rows: seq<Row>) {
    forall i | 0 <= i < |rows| ::
      && rows[i].MappingConsumed? && (rows[i].side, rows[i].client, rows[i].stage) == (n.cfg.side, client, stage)
      && rows[i].endpoint.ip == n.cfg.publicIp
      && rows[i].prior == (if client in n.peerMappingCounts then n.peerMappingCounts[client] else 0)
  }

  lemma TakeKeeps(n: NatState)
    ensures var m := TakeNoise(n); m == n.(alloc := m.alloc, noisePorts := m.noisePorts, exhausted := m.exhausted)
  {
    hide Allocate1;
  }

  lemma {:induction false} ConsumeWrites(n: NatState, client: Endpoint, count: nat, stage: Stage, prior: nat)
    requires prior == if client in n.peerMappingCounts then n.peerMappingCounts[client] else 0
    ensures var o := ConsumeNoise(n, client, count, stage, prior);
      && ConsumedRows(n, client, stage, o.rows) && (!o.raised ==> |o.rows| == count)
      && o.state == n.(alloc := o.state.alloc, noisePorts := o.state.noisePorts, exhausted := o.state.exhausted)
    decreases count
  {
    if count > 0 {
      TakeKeeps(n);
      hide TakeNoise;
      ConsumeWrites(TakeNoise(n), client, count - 1, stage, prior);
      hide Allocate1;
    }
  }

  /** So many ports are consumed, at the cost of the stage's budget. */
  ghost predicate Paid(n: NatState, client: Endpoint, stage: Stage, amount: nat, o: Out) {
    && ConsumedRows(n, client, stage, o.rows) && |o.rows| == amount
    && o.state == n.(alloc := o.state.alloc, noisePorts := o.state.noisePorts, exhausted := o.state.exhausted,
         initialNoiseRemaining := o.state.initialNoiseRemaining, sweepNoiseRemaining := o.state.sweepNoiseRemaining)
    && o.state.initialNoiseRemaining + (if stage.AfterMeasurement? then amount else 0) == n.initialNoiseRemaining
    && o.state.sweepNoiseRemaining + (if stage.DuringSweep? then amount else 0) == n.sweepNoiseRemaining
  }

  /** The noise before a new mapping: none if none is due, or so many consumed ports at the cost of the stage's budget. */
  ghost predicate Noisy(n: NatState, client: Endpoint, o: Out) {
    if exists stage, amount: nat :: NoiseBefore(n, client, stage, amount) then
      exists stage, amount: nat :: NoiseBefore(n, client, stage, amount) && Paid(n, client, stage, amount, o)
    else o.rows == [] && o.state == n
  }

  lemma NoiseDueIs(n: NatState, client: Endpoint)
    ensures NoiseDue(n, client) == None ==> forall stage, amount: nat :: !NoiseBefore(n, client, stage, amount)
    ensures NoiseDue(n, client).Some? ==> NoiseBefore(n, client, NoiseDue(n, client).value.0, NoiseDue(n, client).value.1)
  {
  }

  lemma InjectIsNoisy(n: NatState, client: Endpoint)
    requires !InjectNoise(n, client).raised
    ensures Noisy(n, client, InjectNoise(n, client))
  {
    NoiseDueIs(n, client);
    if NoiseDue(n, client).Some? {
      var (stage, amount) := NoiseDue(n, client).value;
      ConsumeWrites(n, client, amount, stage, Count(n.peerMappingCounts, client));
      hide ConsumeNoise, NoiseDue, ConsumedRows;
      assert Paid(n, client, stage, amount, InjectNoise(n, client));
    }
  }

  /** In this order: the noise, the row and the count, the mapping, the queue. */
  ghost predicate OpensPeer(n: NatState, key: Key, data: Bytes, o: Out, noise: Out, m: Out) {
    var client := key.client;
    var before := if client in n.peerMappingCounts then n.peerMappingCounts[client] else 0;
    var samples := if client in n.measurements then n.measurements[client] else 0;
    && Noisy(n, client, noise)
    && Maps(noise.state.(peerMappingCounts := n.peerMappingCounts[client := before + 1]), key, m) && !m.raised
    && key in m.state.mappings
    && o.rows == noise.rows + [PeerStarted(n.cfg.side, client, key.destination, before, samples)] + m.rows
    && o.state == m.state.(mappings := m.state.mappings[key := m.state.mappings[key].(pending := [Datagram(data, key.destination)])])
  }

  /**
   A datagram to a new peer: first the noise that is due, with its budget, then the row and the count of one more peer
   mapping, then the mapping on the first free port, with the datagram alone in its queue.
   */
  lemma NewPeerOpens(n: NatState, key: Key, data: Bytes)
    requires key !in n.mappings && !TranslateOutbound(n, key.client, key.destination, data).raised
    ensures exists noise, m :: OpensPeer(n, key, data, TranslateOutbound(n, key.client, key.destination, data), noise, m)
  {
    var noise := InjectNoise(n, key.client);
    assert !noise.raised;
    InjectIsNoisy(n, key.client);
    NoisyKeeps(n, key.client, noise);
    var start := OpenPeer(n, key);
    MappingForMaps(start.state, key);
    var m := MappingFor(start.state, key);
    hide InjectNoise, MappingFor, Noisy, Maps;
    MapsHas(start.state, key, m);
    var before := Count(n.peerMappingCounts, key.client);
    assert start.state == noise.state.(peerMappingCounts := n.peerMappingCounts[key.client := before + 1]);
    assert !m.raised;
    var o := TranslateOutbound(n, key.client, key.destination, data);
    assert o.state == Enqueue(m.state, key, data).state && Enqueue(m.state, key, data).rows == [];
    assert o.rows == start.rows + (m.rows + []);
    assert o.rows == start.rows + m.rows;
    assert m.state.mappings[key].pending == [];
    assert [] + [Datagram(data, key.destination)] == [Datagram(data, key.destination)];
    assert o.state == m.state.(mappings := m.state.mappings[key := m.state.mappings[key].(pending := [Datagram(data, key.destination)])]);
    assert start.rows == noise.rows + [PeerStarted(n.cfg.side, key.client, key.destination, before, Count(n.measurements, key.client))];
    assert Maps(noise.state.(peerMappingCounts := n.peerMappingCounts[key.client := before + 1]), key, m);
    assert OpensPeer(n, key, data, o, noise, m);
  }

  lemma NoisyKeeps(n: NatState, client: Endpoint, o: Out)
    requires Noisy(n, client, o)
    ensures o.state.mappings == n.mappings && o.state.cfg == n.cfg
  {
    hide ConsumedRows, NoiseBefore;
  }

  /** Every datagram of a client is noted with its size, and goes to the observer it names, or else to a peer. */
  lemma EgressGoes(n: NatState, client: Endpoint, destination: Endpoint, data: Bytes)
    ensures var o, captured := CaptureEgress(n, client, destination, data), n.(clientSockets := n.clientSockets + {client});
      && o.rows != [] && o.rows[0] == EgressCaptured(n.cfg.side, client, destination, |data|)
      && var rest := Out(o.state, o.rows[1..], o.raised);
      if destination !in n.cfg.observers then rest == TranslateOutbound(captured, client, destination, data)
      else if ParseBindingRequest(data) == None then rest == Out(captured, [], false)
      else rest == HandleStunRequest(captured, client, destination)
  {
    hide TranslateOutbound, HandleStunRequest, ParseBindingRequest;
  }
}
