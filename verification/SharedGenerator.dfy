/**
 Where ports and packet faults are drawn from one generator: two runs in which a NAT meets the same datagrams of its own
 clients and the same bind outcomes, and yet maps one of them to different ports.
 */
module SharedGenerator {
  import opened PortRing
  import opened NatModel
  import opened NatWorld
  import opened WorldSafety
  import opened NonInterference
  import opened StunCodec
  import opened Wrappers

  const COUNTING: nat -> int := i => i

  /** A generator that has not been drawn from, and whose words count up. */
  function Counting(mode: Mode, coins: nat -> real): Allocator {
    Allocator(mode, 1, Stream(COUNTING, coins), FIRST_PORT, 0)
  }

  /** What a run changes about a NAT's table. */
  ghost predicate Opens(n: NatState, n': NatState, key: Key, port: int) {
    && n'.cfg == n.cfg && n'.noisePorts == n.noisePorts && n'.forwarders == n.forwarders
    && key in n'.mappings && n'.mappings[key].port == port && !n'.mappings[key].bound && !n'.mappings[key].failed
    && n'.mappings.Keys == n.mappings.Keys + {key} && n'.mappingByPort == n.mappingByPort[port := key]
    && n'.alloc == n.alloc.(cursor := n.alloc.cursor + 1)
    && n'.clientSockets == n.clientSockets + {key.client}
    && n'.measurements == n.measurements && n'.peerMappingCounts.Keys == n.peerMappingCounts.Keys + {key.client}
  }

  /** A client's first datagram takes the port that is drawn next, if that is free. */
  lemma FirstDatagram(n: NatState, key: Key, data: Bytes, port: int)
    requires n.alloc.mode.RandomMode? && port == RandRange(n.alloc.stream.words(n.alloc.cursor)) && port !in Used(n)
    requires key !in n.mappings && key.client !in n.measurements && key.client !in n.peerMappingCounts && key.destination !in n.cfg.observers
    ensures Opens(n, CaptureEgress(n, key.client, key.destination, data).state, key, port)
  {
    var captured := RecordClient(n, key.client);
    assert NoiseDue(captured, key.client) == None;
    var ready := OpenPeer(captured, key).state;
    assert Used(ready) == Used(n);
    assert Allocate1(ready) == Found(port, Advance(n.alloc));
    hide Allocate1, InjectNoise, Used;
    assert MappingFor(ready, key).state.mappings == ready.mappings[key := Mapping(port, false, false, false, [])];
  }

  /** Two clients of the NAT, a destination that is no observer, and a datagram. */
  datatype Parties = Parties(c: Endpoint, c': Endpoint, d: Endpoint, data: Bytes)

  ghost predicate Apart(p: Parties, w: World) {
    && p.c != p.c' && p.d != p.c && p.d != p.c' && p.d !in w.a.cfg.observers && p.d !in w.b.cfg.observers
    && (forall e | e in {p.c, p.c', p.d} :: e.ip != w.a.cfg.publicIp && e.ip != w.b.cfg.publicIp)
  }

  function FirstKey(p: Parties): Key {
    Key(p.c, p.d)
  }

  function SecondKey(p: Parties): Key {
    Key(p.c', p.d)
  }

  /** A client's datagram, the bind it leads to, and then another client's datagram. */
  function Without(side: Side, p: Parties): seq<Event> {
    [Egress(side, p.c, p.d, p.data), BindOk(side, FirstKey(p)), Egress(side, p.c', p.d, p.data)]
  }

  /** The same with one answer in between. */
  function WithAnswer(side: Side, p: Parties): seq<Event> {
    [Egress(side, p.c, p.d, p.data), BindOk(side, FirstKey(p)), Arrive(side, FIRST_PORT, p.d, p.data, Gates(true, true)),
     Egress(side, p.c', p.d, p.data)]
  }

  lemma ProjectHead(e: Event, rest: seq<Event>, side: Side)
    ensures Project([e] + rest, side) == (if Concerns(e, side) then [e] else []) + Project(rest, side)
    ensures Project([], side) == []
  {
  }

  lemma SameProjection(side: Side, p: Parties)
    ensures Project(WithAnswer(side, p), side) == Project(Without(side, p), side) == Without(side, p)
  {
    var e1, e2, e3, e4 := WithAnswer(side, p)[0], WithAnswer(side, p)[1], WithAnswer(side, p)[2], WithAnswer(side, p)[3];
    ProjectHead(e4, [], side);
    ProjectHead(e3, [e4], side);
    ProjectHead(e2, [e3, e4], side);
    ProjectHead(e1, [e2, e3, e4], side);
    ProjectHead(e2, [e4], side);
    ProjectHead(e1, [e2, e4], side);
    assert [e4] + [] == [e4] && [e3] + [e4] == [e3, e4] && [e2] + [e3, e4] == [e2, e3, e4] && [e2] + [e4] == [e2, e4];
    assert [e1] + [e2, e3, e4] == WithAnswer(side, p) && [e1] + [e2, e4] == Without(side, p);
    hide Project;
  }

  /** The NAT after the first client's datagram and bind, so many draws later. */
  ghost predicate Answering(w: World, side: Side, p: Parties, cursor: nat) {
    WorldInv(w) && Apart(p, w) && Table(Of(w, side), p, cursor) && w.a.clientSockets + w.b.clientSockets == {p.c}
  }

  ghost predicate Table(n: NatState, p: Parties, cursor: nat) {
    && n.alloc.mode.RandomMode? && n.alloc.cursor == cursor && n.alloc.stream.words == COUNTING
    && n.noisePorts == {} && n.mappings.Keys == {FirstKey(p)} && n.mappingByPort == map[FIRST_PORT := FirstKey(p)]
    && FIRST_PORT in n.forwarders && n.measurements == map[] && n.peerMappingCounts.Keys == {p.c}
  }

  lemma EgressEnabled(w: World, side: Side, p: Parties, c: Endpoint)
    requires Apart(p, w) && c in {p.c, p.c'}
    ensures Enabled(w, Egress(side, c, p.d, p.data)) && p.d !in Of(w, side).cfg.observers
  {
  }

  lemma EgressStep(w: World, side: Side, c: Endpoint, d: Endpoint, data: Bytes)
    requires Enabled(w, Egress(side, c, d, data)) && PeersKnown(w) && FlightsKnown(w)
    ensures Of(Step(w, Egress(side, c, d, data)), side) == CaptureEgress(Of(w, side), c, d, data).state
    ensures Of(Step(w, Egress(side, c, d, data)), side.Other()) == Of(w, side.Other())
  {
    hide CaptureEgress, Enabled, PeersKnown, FlightsKnown;
  }

  /** The second client's key is new, and the port drawn next is free. */
  lemma SecondIsNew(n: NatState, p: Parties, cursor: nat)
    requires Table(n, p, cursor) && p.c != p.c' && 1 <= cursor < RING_SIZE
    ensures SecondKey(p) !in n.mappings && p.c' !in n.measurements && p.c' !in n.peerMappingCounts
    ensures FIRST_PORT + cursor !in Used(n) && RandRange(n.alloc.stream.words(n.alloc.cursor)) == FIRST_PORT + cursor
  {
    assert SecondKey(p) != FirstKey(p);
  }

  /** What the second client's datagram does then. */
  lemma SecondDatagram(w: World, side: Side, p: Parties, cursor: nat)
    requires Answering(w, side, p, cursor) && 1 <= cursor < RING_SIZE
    ensures var e := Egress(side, p.c', p.d, p.data);
      && Enabled(w, e) && PeersKnown(w) && FlightsKnown(w)
      && SecondKey(p) in Of(Step(w, e), side).mappings && Of(Step(w, e), side).mappings[SecondKey(p)].port == FIRST_PORT + cursor
  {
    WorldInvKnows(w);
    EgressEnabled(w, side, p, p.c');
    SecondIsNew(Of(w, side), p, cursor);
    hide WorldInv, Apart, Enabled, Step, CaptureEgress, Used, PeersKnown, FlightsKnown;
    EgressStep(w, side, p.c', p.d, p.data);
    FirstDatagram(Of(w, side), SecondKey(p), p.data, FIRST_PORT + cursor);
  }

  /** One answer admitted in between takes something from the generator, and leaves everything else as it is. */
  lemma AnswerDraws(w: World, side: Side, p: Parties)
    requires Answering(w, side, p, 1) && !NoFaults(Of(w, side).cfg)
    ensures var e := Arrive(side, FIRST_PORT, p.d, p.data, Gates(true, true));
      && Enabled(w, e) && PeersKnown(w) && FlightsKnown(w)
      && var faults := DrawFaults(Of(w, side));
      && 2 <= faults.cursor <= 4 && Answering(Step(w, e), side, p, faults.cursor)
  {
    var e := Arrive(side, FIRST_PORT, p.d, p.data, Gates(true, true));
    WorldInvKnows(w);
    var n := Of(w, side);
    assert p.d !in w.a.clientSockets + w.b.clientSockets;
    assert OwnerOfClient(w, p.d) == None && InboundAllowed(w, side, FirstKey(p), p.d);
    assert Enabled(w, e);
    StepKeeps(w, e);
    hide WorldInv;
    var faults := DrawFaults(n);
    var w1 := MoveCursor(w, side, faults.cursor);
    var f := Flight(side, FirstKey(p), p.data, p.d, None, 0);
    assert Step(w, e) == ApplyFaults(w1, f, faults);
    ApplyFaultsMovesNothing(w1, f, faults);
    hide ApplyFaults, Step, DrawFaults;
  }

  lemma FirstEgress(w: World, side: Side, p: Parties, coins: nat -> real)
    requires Start(w) && Apart(p, w) && Of(w, side).alloc == Counting(RandomMode, coins)
    ensures var e := Egress(side, p.c, p.d, p.data);
      && Enabled(w, e) && PeersKnown(w) && FlightsKnown(w)
      && Opens(Of(w, side), Of(Step(w, e), side), FirstKey(p), FIRST_PORT)
      && Of(Step(w, e), side.Other()) == Of(w, side.Other())
  {
    FirstDatagram(Of(w, side), FirstKey(p), p.data, FIRST_PORT);
    hide CaptureEgress;
  }

  lemma BindEnabled(w: World, side: Side, p: Parties, key: Key)
    requires Apart(p, w) && key.client == p.c && Unbound(Of(w, side), key)
    requires w.a.clientSockets + w.b.clientSockets == {p.c} && Of(w, side.Other()).forwarders == {}
    ensures Enabled(w, BindOk(side, key))
  {
    var e := MappingEndpoint(Of(w, side), key);
    assert e.ip == Of(w, side).cfg.publicIp;
    assert e != p.c;
  }

  lemma BindStep(w: World, side: Side, key: Key)
    requires Enabled(w, BindOk(side, key)) && PeersKnown(w) && FlightsKnown(w)
    ensures key in Of(w, side).mappings && Of(Step(w, BindOk(side, key)), side) == BindMapping(Of(w, side), key)
    ensures Of(Step(w, BindOk(side, key)), side.Other()) == Of(w, side.Other())
  {
    hide BindMapping, PeersKnown, FlightsKnown;
  }

  lemma TableIsBound(n: NatState, n': NatState, p: Parties, coins: nat -> real)
    requires n == NewNat(n.cfg, Counting(RandomMode, coins)) && Opens(n, n', FirstKey(p), FIRST_PORT)
    ensures Unbound(n', FirstKey(p)) && Table(BindMapping(n', FirstKey(p)), p, 1) && n'.clientSockets == {p.c}
  {
  }

  lemma FirstBind(w: World, side: Side, p: Parties, coins: nat -> real, mid: World)
    requires Start(w) && Apart(p, w) && Of(w, side).alloc == Counting(RandomMode, coins) && WorldInv(mid)
    requires Opens(Of(w, side), Of(mid, side), FirstKey(p), FIRST_PORT) && Of(mid, side).cfg == Of(w, side).cfg
    requires Of(mid, side.Other()) == Of(w, side.Other())
    ensures var e := BindOk(side, FirstKey(p));
      && Enabled(mid, e) && PeersKnown(mid) && FlightsKnown(mid) && Answering(Step(mid, e), side, p, 1)
  {
    var e, n, n', other := BindOk(side, FirstKey(p)), Of(w, side), Of(mid, side), Of(w, side.Other());
    assert n == NewNat(n.cfg, Counting(RandomMode, coins)) && other.clientSockets == {} && other.forwarders == {};
    hide *;
    WorldInvKnows(mid);
    TableIsBound(n, n', p, coins);
    ApartStays(p, w, mid, side);
    ClientsOf(mid, side);
    BindEnabled(mid, side, p, FirstKey(p));
    StepKeeps(mid, e);
    BindStep(mid, side, FirstKey(p));
    var v := Step(mid, e);
    ClientsOf(v, side);
    BindKeepsClients(n', FirstKey(p));
    ApartStays(p, mid, v, side);
    AnsweringIs(v, side, p, 1);
  }

  lemma ClientsOf(w: World, side: Side)
    ensures w.a.clientSockets + w.b.clientSockets == Of(w, side).clientSockets + Of(w, side.Other()).clientSockets
  {
  }

  lemma BindKeepsClients(n: NatState, key: Key)
    requires key in n.mappings
    ensures BindMapping(n, key).clientSockets == n.clientSockets && BindMapping(n, key).cfg == n.cfg
  {
  }

  lemma ApartStays(p: Parties, w: World, v: World, side: Side)
    requires Apart(p, w) && Of(v, side).cfg == Of(w, side).cfg && Of(v, side.Other()).cfg == Of(w, side.Other()).cfg
    ensures Apart(p, v)
  {
  }

  lemma AnsweringIs(w: World, side: Side, p: Parties, cursor: nat)
    requires WorldInv(w) && Apart(p, w) && Table(Of(w, side), p, cursor) && w.a.clientSockets + w.b.clientSockets == {p.c}
    ensures Answering(w, side, p, cursor)
  {
  }

  lemma RunsOn(w: World, e: Event, rest: seq<Event>, w': World)
    requires Enabled(w, e) && PeersKnown(w) && FlightsKnown(w) && Runs(Step(w, e), rest, w')
    ensures Runs(w, [e] + rest, w')
  {
    assert ([e] + rest)[1..] == rest;
    hide Step, Enabled;
  }

  lemma RunsNowhere(w: World)
    ensures Runs(w, [], w)
  {
  }

  lemma OpensKeepsOptions(n: NatState, n': NatState, key: Key, port: int)
    requires Opens(n, n', key, port)
    ensures n'.cfg == n.cfg
  {
  }

  lemma EventsAre(side: Side, p: Parties)
    ensures var e1, e2, e3, e4 := Egress(side, p.c, p.d, p.data), BindOk(side, FirstKey(p)),
                                  Arrive(side, FIRST_PORT, p.d, p.data, Gates(true, true)), Egress(side, p.c', p.d, p.data);
      && Without(side, p) == [e1] + ([e2] + ([e4] + [])) && WithAnswer(side, p) == [e1] + ([e2] + ([e3] + ([e4] + [])))
  {
  }

  /** Both histories are runs, and the second client's mapping is on different ports after them. */
  lemma AnswerMovesPort(w: World, side: Side, p: Parties, coins: nat -> real) returns (w': World, v': World)
    requires Start(w) && Apart(p, w) && Of(w, side).alloc == Counting(RandomMode, coins) && !NoFaults(Of(w, side).cfg)
    ensures Runs(w, Without(side, p), w') && Runs(w, WithAnswer(side, p), v')
    ensures Project(WithAnswer(side, p), side) == Project(Without(side, p), side)
    ensures SecondKey(p) in Of(w', side).mappings && SecondKey(p) in Of(v', side).mappings
    ensures Of(w', side).mappings[SecondKey(p)].port != Of(v', side).mappings[SecondKey(p)].port
  {
    assert 4 < RING_SIZE;
    hide *;
    var e1, e2, e3, e4 := Egress(side, p.c, p.d, p.data), BindOk(side, FirstKey(p)),
                          Arrive(side, FIRST_PORT, p.d, p.data, Gates(true, true)), Egress(side, p.c', p.d, p.data);
    StartInv(w);
    FirstEgress(w, side, p, coins);
    StepKeeps(w, e1);
    var w1 := Step(w, e1);
    OpensKeepsOptions(Of(w, side), Of(w1, side), FirstKey(p), FIRST_PORT);
    FirstBind(w, side, p, coins, w1);
    var w2 := Step(w1, e2);
    SecondDatagram(w2, side, p, 1);
    w' := Step(w2, e4);
    AnswerDraws(w2, side, p) by { BindKeepsFaults(w, w1, side, p); }
    var v3 := Step(w2, e3);
    SecondDatagram(v3, side, p, DrawFaults(Of(w2, side)).cursor);
    v' := Step(v3, e4);
    RunsNowhere(w');
    RunsOn(w2, e4, [], w');
    RunsOn(w1, e2, [e4] + [], w');
    RunsOn(w, e1, [e2] + ([e4] + []), w');
    RunsNowhere(v');
    RunsOn(v3, e4, [], v');
    RunsOn(w2, e3, [e4] + [], v');
    RunsOn(w1, e2, [e3] + ([e4] + []), v');
    RunsOn(w, e1, [e2] + ([e3] + ([e4] + [])), v');
    EventsAre(side, p);
    SameProjection(side, p);
  }

  lemma BindKeepsFaults(w: World, w1: World, side: Side, p: Parties)
    requires Enabled(w1, BindOk(side, FirstKey(p))) && PeersKnown(w1) && FlightsKnown(w1)
    requires Of(w1, side).cfg == Of(w, side).cfg && !NoFaults(Of(w, side).cfg)
    ensures !NoFaults(Of(Step(w1, BindOk(side, FirstKey(p))), side).cfg)
  {
    BindStep(w1, side, FirstKey(p));
    hide Step, Enabled;
  }

  /** What side `side` of a world started with these options goes through is decided by its own clients and binds. */
  ghost predicate OwnIngressIsAll(cfg: Config, mode: Mode) {
    forall w, es, w', v, fs, v' |
      && Start(w) && Runs(w, es, w') && Start(v) && Runs(v, fs, v')
      && Of(w, cfg.side).cfg == cfg && Of(v, cfg.side).cfg == cfg
      && Of(w, cfg.side).alloc == Of(v, cfg.side).alloc && Of(w, cfg.side).alloc.mode == mode
      && Project(es, cfg.side) == Project(fs, cfg.side) ::
        SameSide(w', v', cfg.side)
  }

  /** A port that a finite set of endpoints does not mention with this address. */
  lemma {:induction false} FreeDestination(observers: set<Endpoint>, ip: nat, least: int) returns (d: Endpoint)
    ensures d.ip == ip && d.port >= least && forall e | e in observers && e.ip == ip :: e.port < d.port
    decreases |observers|
  {
    if e :| e in observers {
      d := FreeDestination(observers - {e}, ip, if e.port >= least then e.port + 1 else least);
    } else {
      d := Endpoint(ip, least);
    }
  }

  const PLAIN := Config(SideA, 0, {}, 0, 0, 0, 0, false, false, false, 0.0, false, 0.0, 0)

  /** A world whose NAT on `cfg.side` has these options and a generator of its own. */
  function Opening(cfg: Config, alloc: Allocator): World {
    var other := PLAIN.(side := cfg.side.Other());
    if cfg.side.SideA? then NewWorld(cfg, alloc, other, Counting(StepMode, i => 0.0))
    else NewWorld(other, Counting(StepMode, i => 0.0), cfg, alloc)
  }

  lemma OpeningStarts(cfg: Config, alloc: Allocator)
    requires ValidOptions(cfg, alloc)
    ensures var w := Opening(cfg, alloc);
      && Start(w) && Of(w, cfg.side).cfg == cfg && Of(w, cfg.side).alloc == alloc
      && Of(w, cfg.side.Other()).cfg == PLAIN.(side := cfg.side.Other())
  {
  }

  lemma SomeParties(cfg: Config, alloc: Allocator) returns (p: Parties)
    ensures Apart(p, Opening(cfg, alloc))
  {
    var ip := cfg.publicIp + 1;
    var d := FreeDestination(cfg.observers, ip, 2);
    p := Parties(Endpoint(ip, 0), Endpoint(ip, 1), d, []);
  }

  /** Own clients and binds decide exactly in step mode and where no fault option is on. */
  lemma OwnIngressIsAllIff(cfg: Config, mode: Mode)
    requires ValidOptions(cfg, Counting(mode, i => 1.0))
    ensures OwnIngressIsAll(cfg, mode) <==> mode.StepMode? || NoFaults(cfg)
  {
    var side := cfg.side;
    if mode.StepMode? || NoFaults(cfg) {
      hide Runs, WorldInv, Project;
      forall w, es, w', v, fs, v' |
        && Start(w) && Runs(w, es, w') && Start(v) && Runs(v, fs, v') && Of(w, side).cfg == cfg && Of(v, side).cfg == cfg
        && Of(w, side).alloc == Of(v, side).alloc && Of(w, side).alloc.mode == mode
        && Project(es, side) == Project(fs, side)
        ensures SameSide(w', v', side)
      {
        StartInv(w);
        StartInv(v);
        StartsTheSame(w, v, side);
        hide Start, SameSide;
        OwnIngressDecides(w, es, w', v, fs, v', side);
      }
    } else {
      var alloc := Counting(mode, i => 1.0);
      var w := Opening(cfg, alloc);
      OpeningStarts(cfg, alloc);
      var p := SomeParties(cfg, alloc);
      hide Opening, Apart, Start, NoFaults, Runs, Project;
      var w', v' := AnswerMovesPort(w, side, p, i => 1.0);
      PortsTell(w', v', side, SecondKey(p));
    }
  }

  lemma StartsTheSame(w: World, v: World, side: Side)
    requires Start(w) && Start(v) && Of(w, side).cfg == Of(v, side).cfg && Of(w, side).alloc == Of(v, side).alloc
    ensures SameSide(w, v, side)
  {
  }

  lemma PortsTell(w: World, v: World, side: Side, key: Key)
    requires key in Of(w, side).mappings && key in Of(v, side).mappings
    requires Of(w, side).mappings[key].port != Of(v, side).mappings[key].port
    ensures !SameSide(w, v, side)
  {
    hide SameWalker, SameAllocationOptions;
  }
}
