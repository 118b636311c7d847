/**
 What the detector recovers of the simulated NAT. The mapping verdict compares three answers to the main socket, which
 have to be about one table; the filtering verdict does not depend on anything that happens in between.
 */
module DetectorRecovery {
  import opened Wrappers
  import opened SimNat
  import opened Detector
  import opened DetectorRuns

  function PortTo(s: SimState, client: Addr, t: Target): Addr
    requires ObserverVip(s, t.port).Some? && KeyOf(s, Ask(client, t, 0)) in s.mappings
  {
    Addr(LOOPBACK, s.mappings[KeyOf(s, Ask(client, t, 0))].port)
  }

  // ----- what is observed -----

  lemma FourSlots(r: seq<Option<Addr>>, second: Option<Addr>)
    requires |r| == 4 && second.Some? && r[1].Some? && r[2].Some? && r[3].Some?
    ensures Observations(TAGS, r, second) ==
      [Observation(SameTarget, r[1].value), Observation(SameTarget, r[1].value), Observation(DiffPort, r[2].value),
       Observation(DiffIp, r[3].value), Observation(NewSocket, second.value)]
  {
    assert TAGS[..3] == [SameTarget, SameTarget, DiffPort] && TAGS[..3][..2] == [SameTarget, SameTarget];
    assert Slot(TAGS, r, DiffIp) == r[3];
    assert Slot(TAGS[..3], r[..3], DiffPort) == r[2];
    assert Slot(TAGS[..3][..2], r[..3][..2], SameTarget) == r[1];
    assert TAGS[1..] == [SameTarget, DiffPort, DiffIp] && TAGS[1..][1..] == [DiffPort, DiffIp];
    assert TAGS[1..][1..][1..] == [DiffIp];
  }

  /** The classifier on five such observations. */
  lemma ClassifyFive(a: Addr, p: Addr, i: Addr, n: Addr)
    ensures var v := ClassifyMapping([Observation(SameTarget, a), Observation(SameTarget, a), Observation(DiffPort, p),
                                      Observation(DiffIp, i), Observation(NewSocket, n)]);
      && v.sample == Some(a)
      && v.kind == if p != a then Some(AddressPortDependent) else if i != a then Some(AddressDependent) else Some(EndpointIndependent)
  {
    var obs := [Observation(SameTarget, a), Observation(SameTarget, a), Observation(DiffPort, p),
                Observation(DiffIp, i), Observation(NewSocket, n)];
    assert obs[1..] == [Observation(SameTarget, a), Observation(DiffPort, p), Observation(DiffIp, i), Observation(NewSocket, n)];
    assert obs[1..][1..] == [Observation(DiffPort, p), Observation(DiffIp, i), Observation(NewSocket, n)];
    assert obs[1..][1..][1..] == [Observation(DiffIp, i), Observation(NewSocket, n)];
    assert obs[1..][1..][1..][1..] == [Observation(NewSocket, n)];
    InGroupFive(obs, a, p, i, n);
    hide InGroup;
    assert MappedOf(obs)[2] == p && MappedOf(obs)[3] == i && MappedOf(obs)[4] == n;
  }

  lemma InGroupFive(obs: seq<Observation>, a: Addr, p: Addr, i: Addr, n: Addr)
    requires obs == [Observation(SameTarget, a)] + ([Observation(SameTarget, a)] + ([Observation(DiffPort, p)]
                      + ([Observation(DiffIp, i)] + [Observation(NewSocket, n)])))
    ensures InGroup(obs, SameTarget) == [a, a] && InGroup(obs, DiffPort) == [p]
    ensures InGroup(obs, DiffIp) == [i] && InGroup(obs, NewSocket) == [n]
  {
    forall g ensures InGroup(obs, g) ==
      (if g == SameTarget then [a, a] else []) + (if g == DiffPort then [p] else [])
      + (if g == DiffIp then [i] else []) + (if g == NewSocket then [n] else [])
    {
      InGroupHead(Observation(SameTarget, a), obs[1..], g);
      InGroupHead(Observation(SameTarget, a), obs[1..][1..], g);
      InGroupHead(Observation(DiffPort, p), obs[1..][1..][1..], g);
      InGroupHead(Observation(DiffIp, i), [Observation(NewSocket, n)], g);
      InGroupHead(Observation(NewSocket, n), [], g);
      assert [Observation(NewSocket, n)] + [] == [Observation(NewSocket, n)];
      hide InGroup;
    }
  }

  lemma InGroupHead(o: Observation, rest: seq<Observation>, g: Group)
    ensures InGroup([o] + rest, g) == (if o.group == g then [o.mapped] else []) + InGroup(rest, g)
    ensures InGroup([], g) == []
  {
  }

  /** The mapped address in answer `i` of the first batch. */
  function Heard(x: Session, i: nat): Addr
    requires i < |x.first.replies| && x.first.replies[i].Some?
  {
    Addr(LOOPBACK, x.first.replies[i].value.mapped)
  }

  /** The first batch in full. */
  function FirstAsks(s: SimState, c: Addr, second: Addr): (r: seq<Request>)
    ensures |r| == 5 && forall i | 0 <= i < 5 :: r[i].client == (if i < 4 then c else second)
  {
    var t := Targets(s);
    [Ask(c, t[0], 0), Ask(c, t[0], 0), Ask(c, t[1], 0), Ask(c, t[2], 0), Ask(second, t[0], 0)]
  }

  lemma FirstArePlain(s: SimState, c: Addr, second: Addr)
    ensures forall i | 0 <= i < 5 :: Plain(s, FirstAsks(s, c, second)[i])
  {
    TargetsAre(s);
    hide Targets;
  }

  lemma ExchangeShape(e: Exchange, s: SimState, asks: seq<Request>, sockets: set<Addr>)
    requires Follows(e, s, asks, sockets)
    ensures Exchanged(e, asks, sockets)
    ensures |e.path| == |e.turns| + 1 && e.path[0] == s && |e.at| == |asks| == |e.replies|
    ensures forall i | 0 <= i < |asks| :: e.at[i] < |e.turns| && e.turns[e.at[i]] == Probe(i)
  {
  }

  lemma FirstFollows(s: SimState, c: Addr, second: Addr, x: Session, profile: Profile)
    requires Valid(s) && Detects(s, c, second, x, profile)
    ensures c != second && Follows(x.first, s, FirstAsks(s, c, second), {c, second})
  {
    hide Targets, Follows, MoreBatch, ObservationsOf, Conclude, FirstBatch;
    Batches(s, c, second);
  }

  /** The first batch, its five probes and who sends them. */
  lemma FirstExchange(s: SimState, c: Addr, second: Addr, x: Session, profile: Profile)
    requires Valid(s) && Detects(s, c, second, x, profile)
    ensures c != second && Exchanged(x.first, FirstAsks(s, c, second), {c, second})
    ensures |x.first.path| == |x.first.turns| + 1 && x.first.path[0] == s && |x.first.at| == 5 && |x.first.replies| == 5
    ensures forall i | 0 <= i < 5 :: x.first.at[i] < |x.first.turns| && x.first.turns[x.first.at[i]] == Probe(i)
    ensures forall i | 0 <= i < 5 :: Plain(s, FirstAsks(s, c, second)[i])
  {
    FirstFollows(s, c, second, x, profile);
    FirstArePlain(s, c, second);
    hide *;
    ExchangeShape(x.first, s, FirstAsks(s, c, second), {c, second});
  }

  /** Every probe of the first batch is answered, with the port its mapping then has. */
  lemma ProbeIsAnswered(s: SimState, c: Addr, second: Addr, x: Session, profile: Profile, i: nat)
    requires Valid(s) && Detects(s, c, second, x, profile) && i < 5
    ensures |x.first.at| == 5 && |x.first.replies| == 5 && x.first.at[i] + 1 < |x.first.path|
    ensures AnsweredBy(x.first.path[x.first.at[i] + 1], FirstAsks(s, c, second)[i], x.first.replies[i])
  {
    hide *;
    FirstExchange(s, c, second, x, profile);
    AnswerStays(x.first, FirstAsks(s, c, second), {c, second}, i, x.first.at[i] + 1);
  }

  /** The report's parts. The verdict on the mapping depends on the answers to probes 1, 2 and 3. */
  lemma ProfileParts(s: SimState, c: Addr, second: Addr, x: Session, profile: Profile)
    requires Valid(s) && Detects(s, c, second, x, profile)
    ensures |x.first.replies| == 5 && forall i | 0 <= i < 5 :: x.first.replies[i].Some?
    ensures var obs := ObservationsOf(TAGS, x.first.replies);
      && obs == [Observation(SameTarget, Heard(x, 1)), Observation(SameTarget, Heard(x, 1)), Observation(DiffPort, Heard(x, 2)),
                 Observation(DiffIp, Heard(x, 3)), Observation(NewSocket, Heard(x, 4))]
      && profile.mapping == Some(if Heard(x, 2) != Heard(x, 1) then AddressPortDependent
                                 else if Heard(x, 3) != Heard(x, 1) then AddressDependent else EndpointIndependent)
      && profile.sample == Some(Heard(x, 1))
      && |x.byPort.replies| == 1 && |x.byIp.replies| == 1
      && profile == Conclude(Targets(s), obs, MappedPorts(x.more.replies), x.byPort.replies[0], x.byIp.replies[0])
  {
    forall i | 0 <= i < 5 ensures |x.first.replies| == 5 && x.first.replies[i].Some? {
      ProbeIsAnswered(s, c, second, x, profile, i);
    }
    Batches(s, c, second);
    FourSlots(seq(4, i requires 0 <= i < 4 => MappedOfReply(x.first.replies[i])), MappedOfReply(x.first.replies[4]));
    hide Targets, MoreBatch, Observations, Slot, ClassifyMapping, FilteringVerdict, ClassifyAllocation, Dedup, PortSequence, Moves, Valid;
    ClassifyFive(Heard(x, 1), Heard(x, 2), Heard(x, 3), Heard(x, 4));
  }

  // ----- the mapping behaviour -----

  /** Turn `m` lies between two of the answers that are compared: those to probes 1, 2 and 3. */
  ghost predicate Compared(e: Exchange, m: nat) {
    |e.at| >= 4 && exists i, j :: 1 <= i <= 3 && 1 <= j <= 3 && e.at[i] < m < e.at[j]
  }

  /** Between the answers that are compared, no mapping of the main socket moves to another port. */
  ghost predicate Settled(x: Session, c: Addr) {
    forall m: nat | Compared(x.first, m) :: !Rebinds(x.first, m, c)
  }

  /** Which of the main socket's three keys coincide, and so which of its ports. */
  lemma PortsFollowKeys(s: SimState, c: Addr)
    requires Valid(s)
    requires forall i | 0 <= i < 3 :: KeyOf(s, Ask(c, Targets(s)[i], 0)) in s.mappings
    ensures (PortTo(s, c, Targets(s)[0]) == PortTo(s, c, Targets(s)[1])) <==> !s.mapping.AddressPortDependent?
    ensures (PortTo(s, c, Targets(s)[0]) == PortTo(s, c, Targets(s)[2])) <==> s.mapping.EndpointIndependent?
  {
    TargetsAre(s);
    var t := Targets(s);
    hide Targets;
    var k0, k1, k2 := KeyOf(s, Ask(c, t[0], 0)), KeyOf(s, Ask(c, t[1], 0)), KeyOf(s, Ask(c, t[2], 0));
    if k0 != k1 { DistinctPorts(s, k0, k1); }
    if k0 != k2 { DistinctPorts(s, k0, k2); }
  }

  /** The last of the compared answers. */
  function LastCompared(at: seq<nat>): (r: nat)
    requires |at| >= 4
    ensures 1 <= r <= 3 && at[1] <= at[r] && at[2] <= at[r] && at[3] <= at[r]
  {
    if at[1] >= at[2] && at[1] >= at[3] then 1 else if at[2] >= at[3] then 2 else 3
  }

  /** All compared answers are in the table once the last of them is given. */
  lemma ComparedTogether(s: SimState, c: Addr, second: Addr, x: Session, profile: Profile) returns (m: nat)
    requires Valid(s) && Detects(s, c, second, x, profile) && Settled(x, c)
    ensures |x.first.at| == 5 && |x.first.replies| == 5 && m < |x.first.path|
    ensures Valid(x.first.path[m]) && SameOptions(s, x.first.path[m])
    ensures forall i | 1 <= i <= 3 :: AnsweredBy(x.first.path[m], FirstAsks(s, c, second)[i], x.first.replies[i])
  {
    hide *;
    FirstExchange(s, c, second, x, profile);
    SettledBetween(x, c);
    var e, asks, sockets := x.first, FirstAsks(s, c, second), {c, second};
    var hi := LastCompared(e.at);
    m := e.at[hi] + 1;
    forall i | 1 <= i <= 3 ensures AnsweredBy(e.path[m], asks[i], e.replies[i]) {
      HeldTogether(e, asks, sockets, c, hi, i);
    }
    PathKeeps(e, asks, sockets, c, 0, m);
  }

  lemma SettledBetween(x: Session, c: Addr)
    requires Settled(x, c)
    ensures forall m: nat | Compared(x.first, m) :: !Rebinds(x.first, m, c)
  {
  }

  lemma HeldTogether(e: Exchange, asks: seq<Request>, sockets: set<Addr>, c: Addr, hi: nat, i: nat)
    requires 1 <= i <= 3 && 1 <= hi <= 3 && |e.at| == |asks| == |e.replies| == 5 && e.path != [] && c in sockets
    requires e.at[i] <= e.at[hi] < |e.turns| && e.turns[e.at[hi]] == Probe(hi) && |e.path| == |e.turns| + 1
    requires Exchanged(e, asks, sockets) && Valid(e.path[0]) && asks[i].client == c && Plain(e.path[0], asks[i])
    requires forall m: nat | Compared(e, m) :: !Rebinds(e, m, c)
    ensures AnsweredBy(e.path[e.at[hi] + 1], asks[i], e.replies[i])
  {
    hide Valid, Exchanged, Plain, AnsweredBy, RawAlloc;
    forall k: nat | e.at[i] < k < e.at[hi] + 1 ensures !Rebinds(e, k, c) {
      if k < e.at[hi] { assert Compared(e, k); }
    }
    hide Rebinds, Compared;
    AnswerStays(e, asks, sockets, i, e.at[hi] + 1);
  }

  /**
   The mapping behaviour is recovered from every prior state, for every order of arrival, whatever else happens, as long
   as the main socket's mappings stay where they are between the answers that are compared.
   */
  lemma MappingRecovered(s: SimState, c: Addr, second: Addr, x: Session, profile: Profile)
    requires Valid(s) && Detects(s, c, second, x, profile) && Settled(x, c)
    ensures profile.mapping == Some(s.mapping)
  {
    hide Detects, Valid, Settled, ObservationsOf, Conclude, MappedPorts;
    ProfileParts(s, c, second, x, profile);
    var m := ComparedTogether(s, c, second, x, profile);
    var v, t := x.first.path[m], Targets(s);
    SameTargets(s, v);
    hide Targets, KeyOf, ObserverVip;
    PortsFollowKeys(v, c);
  }

  lemma SameTargets(s: SimState, s': SimState)
    requires SameOptions(s, s')
    ensures Targets(s') == Targets(s)
  {
    TargetsAre(s);
    TargetsAre(s');
  }

  // ----- when it is not recovered -----

  /** The port of the main socket's only mapping when compared answer `i` is given. */
  function PortWhen(x: Session, c: Addr, i: nat): Option<int> {
    if i < |x.first.at| && x.first.at[i] + 1 < |x.first.path| && EiKey(c) in x.first.path[x.first.at[i] + 1].mappings
    then Some(x.first.path[x.first.at[i] + 1].mappings[EiKey(c)].port) else None
  }

  lemma HeardIsPort(s: SimState, c: Addr, second: Addr, x: Session, profile: Profile, i: nat)
    requires Valid(s) && Detects(s, c, second, x, profile) && s.mapping.EndpointIndependent? && i < 4
    ensures |x.first.at| == 5 && |x.first.replies| == 5 && x.first.at[i] + 1 < |x.first.path| && x.first.replies[i].Some?
    ensures var v := x.first.path[x.first.at[i] + 1];
      Valid(v) && SameOptions(s, v) && EiKey(c) in v.mappings && Some(Heard(x, i).port) == PortWhen(x, c, i)
  {
    ProbeIsAnswered(s, c, second, x, profile, i);
    FirstExchange(s, c, second, x, profile);
    var asks := FirstAsks(s, c, second);
    assert asks[i].client == c;
    hide FirstAsks, Targets, Detects, Valid, Exchanged, Follows, ObserverVip;
    PathKeeps(x.first, asks, {c, second}, c, 0, x.first.at[i] + 1);
  }

  /** With exactly one move between two compared answers, they carry different ports. */
  lemma OneMoveShows(s: SimState, c: Addr, second: Addr, x: Session, profile: Profile, m: nat, i: nat, j: nat)
    requires Valid(s) && Detects(s, c, second, x, profile) && s.mapping.EndpointIndependent?
    requires 1 <= i <= 3 && 1 <= j <= 3 && |x.first.at| == 5 && x.first.at[i] < m < x.first.at[j] && Rebinds(x.first, m, c)
    requires forall k: nat | Compared(x.first, k) && Rebinds(x.first, k, c) :: k == m
    ensures |x.first.replies| == 5 && x.first.replies[i].Some? && x.first.replies[j].Some? && Heard(x, i) != Heard(x, j)
  {
    hide *;
    FirstExchange(s, c, second, x, profile);
    HeardIsPort(s, c, second, x, profile, i);
    HeardIsPort(s, c, second, x, profile, j);
    PortsDiffer(x.first, FirstAsks(s, c, second), {c, second}, c, m, i, j);
    HeardPorts(x, c, i, j);
  }

  lemma HeardPorts(x: Session, c: Addr, i: nat, j: nat)
    requires i < |x.first.at| && x.first.at[i] + 1 < |x.first.path| && EiKey(c) in x.first.path[x.first.at[i] + 1].mappings
    requires j < |x.first.at| && x.first.at[j] + 1 < |x.first.path| && EiKey(c) in x.first.path[x.first.at[j] + 1].mappings
    ensures PortWhen(x, c, i) == Some(x.first.path[x.first.at[i] + 1].mappings[EiKey(c)].port)
    ensures PortWhen(x, c, j) == Some(x.first.path[x.first.at[j] + 1].mappings[EiKey(c)].port)
  {
  }

  lemma PortsDiffer(e: Exchange, asks: seq<Request>, sockets: set<Addr>, c: Addr, m: nat, i: nat, j: nat)
    requires 1 <= i <= 3 && 1 <= j <= 3 && |e.at| == |asks| == 5 && |e.path| == |e.turns| + 1 && c in sockets
    requires e.at[i] < m < e.at[j] < |e.turns| && e.turns[e.at[j]] == Probe(j) && Rebinds(e, m, c)
    requires Exchanged(e, asks, sockets) && Valid(e.path[0]) && e.path[0].mapping.EndpointIndependent?
    requires forall k: nat | Compared(e, k) && Rebinds(e, k, c) :: k == m
    requires EiKey(c) in e.path[e.at[i] + 1].mappings && EiKey(c) in e.path[e.at[j] + 1].mappings
    ensures e.path[e.at[i] + 1].mappings[EiKey(c)].port != e.path[e.at[j] + 1].mappings[EiKey(c)].port
  {
    hide Rebinds, Compared, Exchanged, Valid, KeepsOf;
    var from, till := e.at[i] + 1, e.at[j] + 1;
    NoOtherMove(e, c, m, i, j);
    PathKeeps(e, asks, sockets, c, 0, from);
    PathKeeps(e, asks, sockets, c, 0, m);
    PathKeeps(e, asks, sockets, c, from, m);
    PathKeeps(e, asks, sockets, c, 0, m + 1);
    PathKeeps(e, asks, sockets, c, m + 1, till);
    TurnRebinds(e, asks, sockets, c, m);
    PortsPart(e.path[from], e.path[m], e.path[m + 1], e.path[till], e.turns[m].key, c);
  }

  lemma NoOtherMove(e: Exchange, c: Addr, m: nat, i: nat, j: nat)
    requires 1 <= i <= 3 && 1 <= j <= 3 && |e.at| == 5 && e.at[i] < m < e.at[j] < |e.turns| && e.turns[e.at[j]] == Probe(j)
    requires forall k: nat | Compared(e, k) && Rebinds(e, k, c) :: k == m
    ensures forall k: nat | e.at[i] < k <= e.at[j] && k != m :: !Rebinds(e, k, c)
  {
    hide RawAlloc;
    forall k: nat | e.at[i] < k <= e.at[j] && k != m ensures !Rebinds(e, k, c) {
      if k < e.at[j] { assert Compared(e, k); }
    }
  }

  lemma TurnRebinds(e: Exchange, asks: seq<Request>, sockets: set<Addr>, c: Addr, m: nat)
    requires Exchanged(e, asks, sockets) && Rebinds(e, m, c)
    ensures e.turns[m].Rebind? && e.turns[m].key in e.path[m].mappings && e.turns[m].key.client == c && e.path[m].portPool > 0
    ensures RawAlloc(e.path[m], ALLOC_ATTEMPTS).1.Some? && e.path[m + 1] == RebindForwarder(e.path[m], e.turns[m].key)
  {
    hide RawAlloc, RebindForwarder, HandleStun, Undisturbed;
    assert Moves(e.path[m], e.turns[m], e.path[m + 1], asks, e.replies, sockets);
  }

  /** Kept, moved, kept: the port at the end is not the port at the start. */
  lemma PortsPart(a: SimState, b: SimState, b': SimState, d: SimState, key: SimKey, c: Addr)
    requires Valid(b) && b.mapping.EndpointIndependent? && KeepsOf(a, b, c) && KeepsOf(b', d, c)
    requires key in b.mappings && key.client == c && RawAlloc(b, ALLOC_ATTEMPTS).1.Some? && b' == RebindForwarder(b, key)
    requires EiKey(c) in a.mappings && EiKey(c) in d.mappings
    ensures a.mappings[EiKey(c)].port != d.mappings[EiKey(c)].port
  {
    MoveIsToAnotherPort(b, key, c);
    hide Valid, RawAlloc, RebindForwarder;
  }

  lemma MoveIsToAnotherPort(s: SimState, key: SimKey, c: Addr)
    requires Valid(s) && s.mapping.EndpointIndependent? && key in s.mappings && key.client == c
    requires RawAlloc(s, ALLOC_ATTEMPTS).1.Some?
    ensures key == EiKey(c) && key in RebindForwarder(s, key).mappings
    ensures RebindForwarder(s, key).mappings[key].port != s.mappings[key].port
  {
    RebindMoves(s, key);
    hide RawAlloc, RebindForwarder;
  }

  /**
   And only then: if the main socket's mapping moves at most once between the compared answers, an endpoint-independent
   NAT is recognised exactly when it does not move there.
   */
  lemma EndpointIndependentIff(s: SimState, c: Addr, second: Addr, x: Session, profile: Profile)
    requires Valid(s) && Detects(s, c, second, x, profile) && s.mapping.EndpointIndependent?
    requires forall k: nat, m: nat ::
      Compared(x.first, k) && Rebinds(x.first, k, c) && Compared(x.first, m) && Rebinds(x.first, m, c) ==> k == m
    ensures profile.mapping == Some(s.mapping) <==> Settled(x, c)
  {
    hide Detects, Valid, Rebinds, ObservationsOf, Conclude;
    if Settled(x, c) {
      MappingRecovered(s, c, second, x, profile);
    } else {
      ProfileParts(s, c, second, x, profile);
      var m: nat :| Compared(x.first, m) && Rebinds(x.first, m, c);
      var i, j :| 1 <= i <= 3 && 1 <= j <= 3 && x.first.at[i] < m < x.first.at[j];
      FirstExchange(s, c, second, x, profile);
      hide Targets;
      OneMoveShows(s, c, second, x, profile, m, i, j);
    }
  }

  /** However often it moves, the verdict is right exactly when the three answers find it at the same port. */
  lemma EndpointIndependentVerdict(s: SimState, c: Addr, second: Addr, x: Session, profile: Profile)
    requires Valid(s) && Detects(s, c, second, x, profile) && s.mapping.EndpointIndependent?
    ensures PortWhen(x, c, 1).Some? && PortWhen(x, c, 2).Some? && PortWhen(x, c, 3).Some?
    ensures profile.mapping == Some(if PortWhen(x, c, 2) != PortWhen(x, c, 1) then AddressPortDependent
                                    else if PortWhen(x, c, 3) != PortWhen(x, c, 1) then AddressDependent else EndpointIndependent)
  {
    hide *;
    ProfileParts(s, c, second, x, profile);
    HeardIsPort(s, c, second, x, profile, 1);
    HeardIsPort(s, c, second, x, profile, 2);
    HeardIsPort(s, c, second, x, profile, 3);
    HeardAt(x, 1);
    HeardAt(x, 2);
    HeardAt(x, 3);
  }

  lemma HeardAt(x: Session, i: nat)
    requires i < |x.first.replies| && x.first.replies[i].Some?
    ensures Heard(x, i) == Addr(LOOPBACK, Heard(x, i).port)
  {
  }

  // ----- the filtering behaviour -----

  predicate Passes(f: Filtering, allowed: set<Behaviour>) {
    f.NoFilter? || f.kind in allowed
  }

  /** Which change requests to the main target get an answer, and from where. */
  lemma ChangeAnswers(s: SimState, c: Addr)
    requires Valid(s)
    ensures var r := HandleStun(s, Ask(c, Targets(s)[0], 2));
      !r.raised ==>
        && (r.reply.Some? <==> Passes(s.filtering, {EndpointIndependent, AddressDependent}))
        && (r.reply.Some? ==> r.reply.value.source == s.portBase + 2)
    ensures var r := HandleStun(s, Ask(c, Targets(s)[0], 1));
      !r.raised ==>
        && (r.reply.Some? <==> Passes(s.filtering, {EndpointIndependent}))
        && (r.reply.Some? ==> r.reply.value.source == s.portBase + 3)
  {
    MappingForKeeps(s, c, s.vipSelf, s.portBase + 1);
    hide MappingFor;
  }

  /** A single request is answered by some state the NAT is in, and the exchange keeps the options. */
  lemma SingleAnswer(e: Exchange, s: SimState, r: Request, sockets: set<Addr>, c: Addr) returns (at: SimState)
    requires Valid(s) && Follows(e, s, [r], sockets) && c in sockets
    ensures |e.replies| == 1 && Valid(at) && SameOptions(s, at) && !HandleStun(at, r).raised && e.replies[0] == HandleStun(at, r).reply
    ensures e.path != [] && Valid(Final(e)) && SameOptions(s, Final(e))
  {
    hide HandleStun, Valid;
    at := e.path[e.at[0]];
    assert Moves(at, e.turns[e.at[0]], e.path[e.at[0] + 1], [r], e.replies, sockets);
    PathKeeps(e, [r], sockets, c, 0, e.at[0]);
    PathKeeps(e, [r], sockets, c, 0, |e.turns|);
  }

  /** The states in which the later batches begin. */
  lemma LaterBatches(s: SimState, c: Addr, second: Addr, x: Session, profile: Profile)
    requires Valid(s) && Detects(s, c, second, x, profile)
    ensures x.first.path != [] && Valid(Final(x.first)) && SameOptions(s, Final(x.first))
    ensures x.more.path != [] && Valid(Final(x.more)) && SameOptions(s, Final(x.more))
    ensures Follows(x.byPort, Final(x.more), [Ask(c, Targets(s)[0], 2)], {c, second}) && x.byPort.path != []
    ensures Follows(x.byIp, Final(x.byPort), [Ask(c, Targets(s)[0], 1)], {c, second})
  {
    var t := Targets(s);
    FirstExchange(s, c, second, x, profile);
    Batches(s, c, second);
    hide FirstAsks, Targets, Valid, Moves, Conclude, ClassifyMapping, MoreBatch, FirstBatch, ObservationsOf, MainProbes;
    PathKeeps(x.first, FirstAsks(s, c, second), {c, second}, c, 0, |x.first.turns|);
    PathKeeps(x.more, MoreBatch(t, c, ObservationsOf(TAGS, x.first.replies)), {c, second}, c, 0, |x.more.turns|);
  }

  /** The two change requests, each answered by a NAT with the options of `s`. */
  lemma ChangesAreAnswered(s: SimState, c: Addr, second: Addr, x: Session, profile: Profile)
    requires Valid(s) && Detects(s, c, second, x, profile)
    ensures |x.byPort.replies| == 1 && |x.byIp.replies| == 1
    ensures var r := x.byPort.replies[0];
      (r.Some? <==> Passes(s.filtering, {EndpointIndependent, AddressDependent})) && (r.Some? ==> r.value.source == s.portBase + 2)
    ensures var r := x.byIp.replies[0];
      (r.Some? <==> Passes(s.filtering, {EndpointIndependent})) && (r.Some? ==> r.value.source == s.portBase + 3)
  {
    LaterBatches(s, c, second, x, profile);
    var t := Targets(s);
    SameTargets(s, Final(x.more));
    hide Detects, Passes, Valid, HandleStun, Targets, Follows;
    var at := SingleAnswer(x.byPort, Final(x.more), Ask(c, t[0], 2), {c, second}, c);
    var at' := SingleAnswer(x.byIp, Final(x.byPort), Ask(c, t[0], 1), {c, second}, c);
    SameTargets(s, at);
    SameTargets(s, at');
    ChangeAnswers(at, c);
    ChangeAnswers(at', c);
  }

  /** The filtering behaviour is recovered whatever happens meanwhile, moves of the detector's own mappings included. */
  lemma FilteringRecovered(s: SimState, c: Addr, second: Addr, x: Session, profile: Profile)
    requires Valid(s) && Detects(s, c, second, x, profile)
    ensures profile.filtering == Some(if s.filtering.NoFilter? then EndpointIndependent else s.filtering.kind)
    ensures profile.filteringState == if s.filtering == Filter(AddressPortDependent) then Deny else Allow
  {
    assert s.vipSelf != VIP_C;
    hide *;
    ProfileParts(s, c, second, x, profile);
    ChangesAreAnswered(s, c, second, x, profile);
    var obs := ObservationsOf(TAGS, x.first.replies);
    FilteringOf(Targets(s), obs, MappedPorts(x.more.replies), x.byPort.replies[0], x.byIp.replies[0]);
    AliveIs(obs);
    FilteringTells(s, x.byPort.replies[0], x.byIp.replies[0]);
  }

  lemma FilteringOf(t: seq<Target>, obs: seq<Observation>, extra: seq<int>, byPort: Option<Reply>, byIp: Option<Reply>)
    requires t != []
    ensures var profile := Conclude(t, obs, extra, byPort, byIp);
      (profile.filtering, profile.filteringState) == FilteringVerdict(t, byPort, byIp, ServerAlive(obs))
  {
    hide FilteringVerdict, ServerAlive, ClassifyMapping, ClassifyAllocation, Dedup, PortSequence;
  }

  lemma AliveIs(obs: seq<Observation>)
    requires obs != [] && obs[0].group == SameTarget
    ensures ServerAlive(obs)
  {
    assert obs[0] in obs;
  }

  /** The two answers tell the filters apart. */
  lemma FilteringTells(s: SimState, byPort: Option<Reply>, byIp: Option<Reply>)
    requires s.vipSelf != VIP_C
    requires (byPort.Some? <==> Passes(s.filtering, {EndpointIndependent, AddressDependent})) && (byPort.Some? ==> byPort.value.source == s.portBase + 2)
    requires (byIp.Some? <==> Passes(s.filtering, {EndpointIndependent})) && (byIp.Some? ==> byIp.value.source == s.portBase + 3)
    ensures FilteringVerdict(Targets(s), byPort, byIp, true) ==
      (Some(if s.filtering.NoFilter? then EndpointIndependent else s.filtering.kind),
       if s.filtering == Filter(AddressPortDependent) then Deny else Allow)
  {
    TargetsAre(s);
    TargetRoles(s);
    hide Targets, SecondPort, SecondAddress;
    match s.filtering
    case NoFilter =>
    case Filter(EndpointIndependent) =>
    case Filter(AddressDependent) =>
    case Filter(AddressPortDependent) =>
  }
}
