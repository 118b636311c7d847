/** The other side of recovery: a busy port between two compared answers, and the detection that is wrong because of it. */
module DetectorRebinds {
  import opened Wrappers
  import opened SimNat
  import opened Detector
  import opened DetectorRuns
  import opened DetectorRecovery

  /** A forwarder that moves to another port between two probes changes the answer of an endpoint-independent NAT. */
  lemma RebindMovesAnswer(s: SimState, c: Addr)
    requires Valid(s) && s.mapping.EndpointIndependent?
    requires var a := HandleStun(s, Ask(c, Targets(s)[0], 0));
      !a.raised && a.state.portPool > 0 && RawAlloc(a.state, ALLOC_ATTEMPTS).1.Some?
    ensures var a := HandleStun(s, Ask(c, Targets(s)[0], 0));
      EiKey(c) in a.state.mappings && a.reply.Some?
      && var moved := RebindForwarder(a.state, EiKey(c));
      moved.portPool > 0
      && var b := HandleStun(moved, Ask(c, Targets(s)[1], 0));
      b.reply.Some? && b.reply.value.mapped != a.reply.value.mapped
  {
    TargetsAre(s);
    hide Targets;
    var r := Ask(c, Targets(s)[0], 0);
    var a := HandleStun(s, r);
    HandleStunKeeps(s, r);
    RebindMoves(a.state, EiKey(c));
    var moved := RebindForwarder(a.state, EiKey(c));
    hide RawAlloc, Valid, Taken, RebindForwarder;
    assert a.reply.value.mapped == a.state.mappings[EiKey(c)].port;
    assert moved.mappings[EiKey(c)].port != a.state.mappings[EiKey(c)].port;
  }

  // ----- requests in sequence -----

  /** The state after the first `n` requests, when nothing else happens. */
  function After(s: SimState, asks: seq<Request>, n: nat): SimState
    requires n <= |asks|
  {
    if n == 0 then s
    else
      var before := After(s, asks, n - 1);
      if before.portPool > 0 then HandleStun(before, asks[n - 1]).state else before
  }

  function Served(s: SimState, asks: seq<Request>): Exchange {
    Exchange(
      seq(|asks| + 1, i requires 0 <= i <= |asks| => After(s, asks, i)),
      seq(|asks|, i requires 0 <= i < |asks| => Probe(i)),
      seq(|asks|, i => i),
      seq(|asks|, i requires 0 <= i < |asks| =>
        if After(s, asks, i).portPool > 0 then HandleStun(After(s, asks, i), asks[i]).reply else None))
  }

  /** Both sockets have their mapping, the main one's at `port`; what requests change is only where the mappings point. */
  ghost predicate Mapped(s: SimState, s': SimState, c: Addr, second: Addr) {
    && Valid(s') && s'.mapping.EndpointIndependent? && EiKey(c) in s'.mappings && EiKey(second) in s'.mappings
    && s' == s.(mappings := s'.mappings)
    && (EiKey(c) in s.mappings ==> s'.mappings[EiKey(c)].bound == s.mappings[EiKey(c)].bound)
  }

  lemma RequestReuses(s: SimState, s': SimState, c: Addr, second: Addr, r: Request)
    requires Mapped(s, s', c, second) && r.client in {c, second}
    ensures s'.portPool > 0 && !HandleStun(s', r).raised && Mapped(s, HandleStun(s', r).state, c, second)
  {
    var k := EiKey(r.client);
    assert ObserverVip(s', r.observer).Some? ==> KeyOf(s', r) == k;
    hide RawAlloc, ObserverVip;
    assert !HandleStun(s', r).raised;
    HandleStunKeeps(s', r);
    hide Valid;
  }

  lemma {:induction false} AfterReuses(s: SimState, asks: seq<Request>, n: nat, c: Addr, second: Addr)
    requires Mapped(s, s, c, second) && n <= |asks| && forall r | r in asks :: r.client in {c, second}
    ensures Mapped(s, After(s, asks, n), c, second)
  {
    hide Mapped, HandleStun;
    if n > 0 {
      AfterReuses(s, asks, n - 1, c, second);
      RequestReuses(s, After(s, asks, n - 1), c, second, asks[n - 1]);
    }
  }

  lemma ServedIsExchanged(s: SimState, asks: seq<Request>, c: Addr, second: Addr)
    requires Mapped(s, s, c, second) && forall r | r in asks :: r.client in {c, second}
    ensures Follows(Served(s, asks), s, asks, {c, second}) && Served(s, asks).path != []
    ensures Mapped(s, Final(Served(s, asks)), c, second)
  {
    var e := Served(s, asks);
    hide HandleStun, Mapped;
    forall m | 0 <= m < |asks| ensures Moves(e.path[m], e.turns[m], e.path[m + 1], asks, e.replies, {c, second}) {
      AfterReuses(s, asks, m, c, second);
      RequestReuses(s, After(s, asks, m), c, second, asks[m]);
    }
    AfterReuses(s, asks, |asks|, c, second);
  }

  // ----- a wrong detection -----

  /** Where the mappings point has no part in the search for a port. */
  lemma {:induction false} SearchIgnoresMappings(s: SimState, s': SimState, attempts: nat)
    requires s.portPool > 0 && s' == s.(mappings := s'.mappings)
    ensures RawAlloc(s', attempts).1 == RawAlloc(s, attempts).1
    decreases attempts
  {
    if attempts > 0 && Taken(s, Draw(s)) {
      SearchIgnoresMappings(Drawn(s), Drawn(s'), attempts - 1);
    }
  }

  /** Two probes, a rebind of the main socket's mapping, three probes. */
  function Interrupted(s: SimState, asks: seq<Request>, key: SimKey): Exchange
    requires |asks| == 5
  {
    var a := Served(s, asks[..2]);
    var v := a.path[2];
    var b := Served(if v.portPool > 0 && key in v.mappings then RebindForwarder(v, key) else v, asks[2..]);
    Exchange(a.path + b.path, [Probe(0), Probe(1), Rebind(key), Probe(2), Probe(3), Probe(4)], [0, 1, 3, 4, 5], a.replies + b.replies)
  }

  lemma MovedStaysMapped(s: SimState, v: SimState, c: Addr, second: Addr)
    requires Mapped(s, v, c, second)
    ensures v.portPool > 0 && EiKey(c) in v.mappings
    ensures var w := RebindForwarder(v, EiKey(c)); Mapped(w, w, c, second)
  {
    RebindMoves(v, EiKey(c));
    hide RebindForwarder, Valid;
  }

  lemma HalvesMove(e: Exchange, asks: seq<Request>, sockets: set<Addr>, i: nat, part: seq<Request>, d: Exchange, from: nat, shift: nat)
    requires Exchanged(d, part, sockets) && i < |part| && |e.path| == |e.turns| + 1 == 7 && |asks| == |e.replies| == 5 && |e.at| == 5
    requires i + from < 5 && i + from + shift < 6 && d.turns[d.at[i]] == Probe(i)
    requires d.at[i] == i && asks[i + from] == part[i] && e.replies[i + from] == d.replies[i]
    requires e.path[i + from + shift] == d.path[i] && e.path[i + from + shift + 1] == d.path[i + 1]
    ensures Moves(e.path[i + from + shift], Probe(i + from), e.path[i + from + shift + 1], asks, e.replies, sockets)
  {
    hide HandleStun;
    assert Moves(d.path[i], d.turns[i], d.path[i + 1], part, d.replies, sockets);
  }

  lemma ServedShape(s: SimState, asks: seq<Request>)
    ensures var e := Served(s, asks);
      && |e.path| == |asks| + 1 && |e.turns| == |e.at| == |e.replies| == |asks| && e.path[0] == s && Final(e) == e.path[|asks|]
      && forall i | 0 <= i < |asks| :: e.at[i] == i && e.turns[i] == Probe(i)
  {
    hide HandleStun;
  }

  /** The two halves and the turn between them. */
  lemma InterruptedShape(s: SimState, asks: seq<Request>, key: SimKey, a: Exchange, b: Exchange)
    requires |asks| == 5 && a == Served(s, asks[..2]) && a.path[2].portPool > 0 && key in a.path[2].mappings
    requires b == Served(RebindForwarder(a.path[2], key), asks[2..])
    ensures var e := Interrupted(s, asks, key);
      && |e.path| == 7 && |e.replies| == 5 && e.at == [0, 1, 3, 4, 5]
      && e.turns == [Probe(0), Probe(1), Rebind(key), Probe(2), Probe(3), Probe(4)]
      && (forall i | 0 <= i < 3 :: e.path[i] == a.path[i]) && (forall i | 0 <= i < 4 :: e.path[i + 3] == b.path[i])
      && (forall i | 0 <= i < 2 :: e.replies[i] == a.replies[i]) && (forall i | 0 <= i < 3 :: e.replies[i + 2] == b.replies[i])
  {
    ServedShape(s, asks[..2]);
    ServedShape(RebindForwarder(a.path[2], key), asks[2..]);
    hide Served, RebindForwarder;
  }

  /** Exchanges are put together turn by turn. */
  lemma SixTurns(e: Exchange, asks: seq<Request>, key: SimKey, sockets: set<Addr>)
    requires |asks| == 5 && |e.path| == 7 && |e.replies| == 5 && e.at == [0, 1, 3, 4, 5]
    requires e.turns == [Probe(0), Probe(1), Rebind(key), Probe(2), Probe(3), Probe(4)]
    requires Moves(e.path[0], Probe(0), e.path[1], asks, e.replies, sockets)
    requires Moves(e.path[1], Probe(1), e.path[2], asks, e.replies, sockets)
    requires Moves(e.path[2], Rebind(key), e.path[3], asks, e.replies, sockets)
    requires Moves(e.path[3], Probe(2), e.path[4], asks, e.replies, sockets)
    requires Moves(e.path[4], Probe(3), e.path[5], asks, e.replies, sockets)
    requires Moves(e.path[5], Probe(4), e.path[6], asks, e.replies, sockets)
    ensures Exchanged(e, asks, sockets)
  {
    hide Moves;
  }

  lemma InterruptedIsExchanged(s: SimState, asks: seq<Request>, c: Addr, second: Addr)
    requires Mapped(s, s, c, second) && |asks| == 5 && (forall r | r in asks :: r.client in {c, second})
    requires EiKey(c) in s.mappings && !s.mappings[EiKey(c)].bound
    ensures var e := Interrupted(s, asks, EiKey(c));
      && Follows(e, s, asks, {c, second}) && e.at == [0, 1, 3, 4, 5] && |e.path| == 7
      && e.turns == [Probe(0), Probe(1), Rebind(EiKey(c)), Probe(2), Probe(3), Probe(4)]
      && Mapped(s, e.path[2], c, second)
      && Mapped(Final(e), Final(e), c, second)
  {
    var key, sockets := EiKey(c), {c, second};
    hide *;
    var e, a := Interrupted(s, asks, key), Served(s, asks[..2]);
    ServedShape(s, asks[..2]);
    ServedIsExchanged(s, asks[..2], c, second);
    var v := a.path[2];
    RebindIsAMove(s, v, asks, e.replies, c, second);
    MovedStaysMapped(s, v, c, second);
    var w := RebindForwarder(v, key);
    var b := Served(w, asks[2..]);
    ServedShape(w, asks[2..]);
    ServedIsExchanged(w, asks[2..], c, second);
    InterruptedShape(s, asks, key, a, b);
    FollowsIs(a, s, asks[..2], sockets);
    FollowsIs(b, w, asks[2..], sockets);
    HalvesMove(e, asks, sockets, 0, asks[..2], a, 0, 0);
    HalvesMove(e, asks, sockets, 1, asks[..2], a, 0, 0);
    HalvesMove(e, asks, sockets, 0, asks[2..], b, 2, 1);
    HalvesMove(e, asks, sockets, 1, asks[2..], b, 2, 1);
    HalvesMove(e, asks, sockets, 2, asks[2..], b, 2, 1);
    SixTurns(e, asks, key, sockets);
    FollowsFrom(e, s, asks, sockets);
    SevenStates(e);
    FinalStaysMapped(w, Final(b), c, second);
  }

  lemma SevenStates(e: Exchange)
    requires |e.path| == 7
    ensures Final(e) == e.path[6]
  {
  }

  lemma FinalStaysMapped(s: SimState, s': SimState, c: Addr, second: Addr)
    requires Mapped(s, s', c, second)
    ensures Mapped(s', s', c, second)
  {
    hide Valid;
  }

  lemma FollowsIs(e: Exchange, s: SimState, asks: seq<Request>, sockets: set<Addr>)
    requires Follows(e, s, asks, sockets)
    ensures Exchanged(e, asks, sockets)
  {
    hide Exchanged;
  }

  lemma FollowsFrom(e: Exchange, s: SimState, asks: seq<Request>, sockets: set<Addr>)
    requires Exchanged(e, asks, sockets) && e.path != [] && e.path[0] == s
    ensures Follows(e, s, asks, sockets)
  {
    hide Moves;
  }

  lemma RebindIsAMove(s: SimState, v: SimState, asks: seq<Request>, replies: seq<Option<Reply>>, c: Addr, second: Addr)
    requires Mapped(s, v, c, second) && EiKey(c) in s.mappings && !s.mappings[EiKey(c)].bound
    ensures EiKey(c) in v.mappings && v.portPool > 0 && Moves(v, Rebind(EiKey(c)), RebindForwarder(v, EiKey(c)), asks, replies, {c, second})
  {
    hide RebindForwarder;
  }

  /** The turn between the halves is the only rebind, and it does find a port. */
  lemma OnlyRebind(s: SimState, e: Exchange, c: Addr, second: Addr)
    requires Mapped(s, s, c, second) && RawAlloc(s, ALLOC_ATTEMPTS).1.Some?
    requires |e.path| == 7 && e.at == [0, 1, 3, 4, 5] && Mapped(s, e.path[2], c, second)
    requires e.turns == [Probe(0), Probe(1), Rebind(EiKey(c)), Probe(2), Probe(3), Probe(4)]
    ensures Rebinds(e, 2, c) && e.at[1] < 2 < e.at[2]
    ensures forall k: nat | Rebinds(e, k, c) :: k == 2
  {
    SearchIgnoresMappings(s, e.path[2], ALLOC_ATTEMPTS);
    hide RawAlloc, Valid;
  }

  lemma MappedStart(s: SimState, c: Addr, second: Addr)
    requires Valid(s) && s.mapping.EndpointIndependent? && EiKey(c) in s.mappings && EiKey(second) in s.mappings
    ensures Mapped(s, s, c, second) && s.portPool > 0 && s.vipSelf != VIP_C
  {
    hide Fits;
  }

  lemma MoreBatchIsOurs(s: SimState, c: Addr, second: Addr, obs: seq<Observation>)
    requires s.vipSelf != VIP_C
    ensures forall r | r in MoreBatch(Targets(s), c, obs) :: r.client in {c, second}
  {
    Batches(s, c, second);
    hide Targets, MoreBatch, ClassifyMapping;
  }

  lemma RestFollows(v: SimState, asks: seq<Request>, c: Addr, second: Addr) returns (e: Exchange)
    requires Mapped(v, v, c, second) && forall r | r in asks :: r.client in {c, second}
    ensures e == Served(v, asks) && Follows(e, v, asks, {c, second}) && e.path != [] && |e.replies| == |asks|
    ensures Mapped(Final(e), Final(e), c, second)
  {
    hide *;
    e := Served(v, asks);
    ServedShape(v, asks);
    ServedIsExchanged(v, asks, c, second);
    FinalStaysMapped(v, Final(e), c, second);
  }

  lemma DetectsFrom(s: SimState, c: Addr, second: Addr, first: Exchange) returns (x: Session, profile: Profile)
    requires c != second && s.vipSelf != VIP_C && first.path != [] && |first.replies| == 5
    requires Follows(first, s, FirstAsks(s, c, second), {c, second}) && Mapped(Final(first), Final(first), c, second)
    ensures x.first == first && Detects(s, c, second, x, profile)
  {
    var t := Targets(s);
    Batches(s, c, second);
    var obs := ObservationsOf(TAGS, first.replies);
    hide Follows, Mapped, MoreBatch, FirstBatch, ObservationsOf, Targets, Conclude, Served, MainProbes;
    MoreBatchIsOurs(s, c, second, obs);
    var more := RestFollows(Final(first), MoreBatch(t, c, obs), c, second);
    var byPort := RestFollows(Final(more), [Ask(c, t[0], 2)], c, second);
    var byIp := RestFollows(Final(byPort), [Ask(c, t[0], 1)], c, second);
    x := Session(first, more, byPort, byIp);
    profile := Conclude(t, obs, MappedPorts(more.replies), byPort.replies[0], byIp.replies[0]);
  }

  /**
   So there is a detection that goes wrong: whenever an endpoint-independent NAT has mapped both sockets, has not yet
   opened the main one's port and finds it busy between the second and the third probe, with another port to move to,
   the detector reports it address- and port-dependent.
   */
  lemma RebindFoolsDetector(s: SimState, c: Addr, second: Addr) returns (x: Session, profile: Profile)
    requires Valid(s) && s.mapping.EndpointIndependent? && c != second && EiKey(c) in s.mappings && EiKey(second) in s.mappings
    requires !s.mappings[EiKey(c)].bound && RawAlloc(s, ALLOC_ATTEMPTS).1.Some?
    ensures Detects(s, c, second, x, profile) && profile.mapping == Some(AddressPortDependent)
  {
    MappedStart(s, c, second);
    hide *;
    var asks := FirstAsks(s, c, second);
    assert forall r | r in asks :: r.client in {c, second};
    var first := Interrupted(s, asks, EiKey(c));
    InterruptedIsExchanged(s, asks, c, second);
    ExchangeShape(first, s, asks, {c, second});
    x, profile := DetectsFrom(s, c, second, first);
    OnlyRebind(s, first, c, second);
    OneMoveShows(s, c, second, x, profile, 2, 1, 2);
    ProfileParts(s, c, second, x, profile);
  }
}
