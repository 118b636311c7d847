/** What the detector reports about port allocation, and when that is what the simulated NAT does. */
module DetectorAllocation {
  import opened Wrappers
  import opened SimNat
  import opened Detector
  import opened DetectorRuns
  import opened DetectorRecovery

  // ----- the classifier on four and five ports -----

  lemma {:induction false} TwoValuesFit(s: seq<int>, x: int, y: int)
    requires x != y
    ensures Occurrences(s, x) + Occurrences(s, y) <= |s|
    decreases |s|
  {
    if s != [] {
      TwoValuesFit(s[1..], x, y);
      assert s == [s[0]] + s[1..];
    }
  }

  /** A value that makes up at least three of four differences is the mode. */
  lemma ThreeOfFour(diffs: seq<int>, x: int)
    requires |diffs| == 4 && Occurrences(diffs, x) >= 3
    ensures diffs[Mode(diffs, 4)] == x
  {
    assert x in multiset(diffs);
    var i :| 0 <= i < 4 && diffs[i] == x;
    var m := diffs[Mode(diffs, 4)];
    assert Occurrences(diffs, diffs[i]) <= Occurrences(diffs, m);
    if m != x { TwoValuesFit(diffs, m, x); }
  }

  /** Five ports with one common step, one of whose gaps may be twice as wide, are linear with that step. */
  lemma NearlyLinear(p: seq<int>, step: int)
    requires |p| == 5 && step != 0
    requires Occurrences(Diffs(p), step) >= 3
    ensures ClassifyAllocation(p) == (LinearStep, step)
  {
    ThreeOfFour(Diffs(p), step);
    assert step in multiset(Diffs(p));
    var i :| 0 <= i < 4 && Diffs(p)[i] == step;
    LinearVerdict(p, step, if p[i] != p[0] then i else i + 1);
  }

  lemma DedupKeeps(p: seq<int>)
    requires forall i | 0 <= i < |p| - 1 :: p[i] != p[i + 1]
    ensures Dedup(p) == p
    decreases |p|
  {
    if |p| >= 2 {
      DedupKeeps(p[..|p| - 1]);
    }
  }

  lemma AlternatingDiffs(p: seq<int>, a: int, b: int)
    requires a != b && p == [a, b, a, b]
    ensures Diffs(p) == [b - a, a - b, b - a] && Dedup(p) == p
  {
    DedupKeeps(p);
    hide Dedup;
  }

  lemma Alternating(p: seq<int>, a: int, b: int)
    requires a != b && p == [a, b, a, b]
    ensures ClassifyAllocation(Dedup(p)) == (LinearStep, b - a)
  {
    hide *;
    AlternatingDiffs(p, a, b);
    TwiceOfThree(b - a, a - b);
    LinearVerdict(p, b - a, 1);
  }

  lemma LinearVerdict(p: seq<int>, step: int, k: nat)
    requires |p| >= 2 && k < |p| && p[k] != p[0] && step != 0
    requires Diffs(p)[Mode(Diffs(p), |Diffs(p)|)] == step && 5 * Occurrences(Diffs(p), step) >= 3 * |Diffs(p)|
    ensures ClassifyAllocation(p) == (LinearStep, step)
  {
    assert p[k] in p;
  }

  lemma TwiceOfThree(x: int, y: int)
    requires x != y
    ensures var d := [x, y, x]; Occurrences(d, x) == 2 && d[Mode(d, 3)] == x
  {
    var d := [x, y, x];
    assert d == [x] + ([y] + [x]);
    var m := d[Mode(d, 3)];
    assert Occurrences(d, d[0]) <= Occurrences(d, m);
    if m != x { TwoValuesFit(d, m, x); }
  }

  lemma TwoMappedPorts(replies: seq<Option<Reply>>)
    requires |replies| == 2 && replies[0].Some? && replies[1].Some?
    ensures MappedPorts(replies) == [replies[0].value.mapped, replies[1].value.mapped]
  {
    assert MappedPorts([]) == [];
    assert replies[1..][1..] == [];
    assert MappedPorts(replies[1..]) == [replies[1].value.mapped];
  }

  lemma InGroupOfFive(a: Addr, p: Addr, i: Addr, n: Addr)
    ensures var obs := [Observation(SameTarget, a), Observation(SameTarget, a), Observation(DiffPort, p),
                        Observation(DiffIp, i), Observation(NewSocket, n)];
      InGroup(obs, DiffPort) == [p] && InGroup(obs, DiffIp) == [i]
  {
    var obs := [Observation(SameTarget, a), Observation(SameTarget, a), Observation(DiffPort, p),
                Observation(DiffIp, i), Observation(NewSocket, n)];
    assert obs == [Observation(SameTarget, a)] + ([Observation(SameTarget, a)] + ([Observation(DiffPort, p)]
                    + ([Observation(DiffIp, i)] + [Observation(NewSocket, n)])));
    InGroupFive(obs, a, p, i, n);
  }

  // ----- the ports the allocation is judged by -----

  /** From the first compared answer to the last extra one, no mapping of the main socket moves to another port. */
  ghost predicate SettledThrough(x: Session, c: Addr) {
    && (forall i, m: nat | 1 <= i <= 3 && i < |x.first.at| && x.first.at[i] < m :: !Rebinds(x.first, m, c))
    && (forall i, m: nat | 0 <= i < |x.more.at| && m < x.more.at[i] :: !Rebinds(x.more, m, c))
  }

  lemma ThroughIsSettled(x: Session, c: Addr)
    requires SettledThrough(x, c)
    ensures Settled(x, c)
  {
    hide Rebinds;
  }

  /** An endpoint-independent NAT is reported as stable: one socket never sees a second port. */
  lemma EndpointIndependentIsStable(s: SimState, c: Addr, second: Addr, x: Session, profile: Profile)
    requires Valid(s) && Detects(s, c, second, x, profile) && Settled(x, c) && s.mapping.EndpointIndependent?
    ensures (profile.allocation, profile.step) == (Stable, 0)
  {
    hide Detects, Valid, Settled, ClassifyMapping, FilteringVerdict, ObservationsOf, Targets, MappedPorts;
    MappingRecovered(s, c, second, x, profile);
    ProfileParts(s, c, second, x, profile);
    hide Heard;
    assert |profile.ports| <= 1;
  }

  /** The extra probes of a symmetric NAT. */
  lemma MoreExchange(s: SimState, c: Addr, second: Addr, x: Session, profile: Profile)
    requires Valid(s) && Detects(s, c, second, x, profile) && Settled(x, c) && !s.mapping.EndpointIndependent?
    ensures var t := Targets(s);
      Follows(x.more, Final(x.first), [Ask(c, t[3], 0), Ask(c, t[4], 0)], {c, second}) && x.first.path != []
  {
    MappingRecovered(s, c, second, x, profile);
    ProfileParts(s, c, second, x, profile);
    FirstExchange(s, c, second, x, profile);
    Batches(s, c, second);
    hide Targets, FirstBatch, FirstAsks, MoreBatch, Conclude, Follows, ObservationsOf, Valid, Settled;
  }

  /** The port in answer `i` of the extra batch. */
  function More(x: Session, i: nat): int
    requires i < |x.more.replies| && x.more.replies[i].Some?
  {
    x.more.replies[i].value.mapped
  }

  /** The extra probes are answered from the table in which all the answers before still stand. */
  lemma MoreIsAnswered(s: SimState, c: Addr, second: Addr, x: Session, profile: Profile, i: nat)
    requires Valid(s) && Detects(s, c, second, x, profile) && SettledThrough(x, c) && !s.mapping.EndpointIndependent? && i < 2
    ensures |x.first.replies| == 5 && |x.more.at| == 2 && |x.more.replies| == 2 && x.more.at[i] + 1 < |x.more.path|
    ensures var v := x.more.path[x.more.at[i] + 1];
      && Valid(v) && SameOptions(s, v) && AnsweredBy(v, Ask(c, Targets(s)[3 + i], 0), x.more.replies[i])
      && forall j | 1 <= j <= 3 :: AnsweredBy(v, FirstAsks(s, c, second)[j], x.first.replies[j])
  {
    hide *;
    ThroughIsSettled(x, c);
    MoreExchange(s, c, second, x, profile);
    FirstExchange(s, c, second, x, profile);
    LaterBatches(s, c, second, x, profile);
    ExtrasArePlain(s, Final(x.first), c);
    var e, asks, sockets := x.more, [Ask(c, Targets(s)[3], 0), Ask(c, Targets(s)[4], 0)], {c, second};
    ExchangeShape(e, Final(x.first), asks, sockets);
    ThroughParts(x, c, i);
    var m := e.at[i] + 1;
    AnswerStays(e, asks, sockets, i, m);
    PathKeeps(e, asks, sockets, c, 0, m);
    OptionsChain(s, Final(x.first), e.path[m]);
    forall j | 1 <= j <= 3 ensures AnsweredBy(e.path[m], FirstAsks(s, c, second)[j], x.first.replies[j]) {
      AnswerStays(x.first, FirstAsks(s, c, second), sockets, j, |x.first.turns|);
      StillAnswered(Final(x.first), e.path[m], FirstAsks(s, c, second)[j], x.first.replies[j]);
    }
  }

  lemma OptionsChain(s: SimState, s': SimState, s'': SimState)
    requires SameOptions(s, s') && SameOptions(s', s'')
    ensures SameOptions(s, s'')
  {
  }

  lemma ThroughParts(x: Session, c: Addr, i: nat)
    requires SettledThrough(x, c) && |x.first.at| == 5 && i < |x.more.at| == 2 && |x.first.path| == |x.first.turns| + 1
    requires x.more.at[i] < |x.more.turns| && x.more.turns[x.more.at[i]] == Probe(i)
    ensures forall j, m: nat | 1 <= j <= 3 && x.first.at[j] < m :: !Rebinds(x.first, m, c)
    ensures forall m: nat | m < x.more.at[i] + 1 :: !Rebinds(x.more, m, c)
    ensures x.first.path != [] && Final(x.first) == x.first.path[|x.first.turns|]
  {
    hide RawAlloc;
  }

  lemma ExtrasArePlain(s: SimState, v: SimState, c: Addr)
    requires SameOptions(s, v)
    ensures forall i | 3 <= i < 5 :: Plain(v, Ask(c, Targets(s)[i], 0))
  {
    TargetsAre(s);
    hide Targets;
  }

  /** The sequence of ports that the allocation of a symmetric NAT is judged by. */
  lemma SequenceIsHeard(s: SimState, c: Addr, second: Addr, x: Session, profile: Profile)
    requires Valid(s) && Detects(s, c, second, x, profile) && SettledThrough(x, c) && !s.mapping.EndpointIndependent?
    ensures |x.first.replies| == 5 && forall i | 0 <= i < 5 :: x.first.replies[i].Some?
    ensures |x.more.replies| == 2 && x.more.replies[0].Some? && x.more.replies[1].Some?
    ensures profile.mapping == Some(s.mapping)
    ensures profile.ports == Dedup([Heard(x, 1).port] + (if s.mapping.AddressPortDependent? then [Heard(x, 2).port] else [])
                                   + [Heard(x, 3).port, More(x, 0), More(x, 1)])
    ensures (profile.allocation, profile.step) == ClassifyAllocation(profile.ports)
  {
    hide Detects, Valid, Settled, SettledThrough, ClassifyMapping, ClassifyAllocation, FilteringVerdict, ObservationsOf, Targets, MappedPorts, Dedup;
    ThroughIsSettled(x, c);
    MappingRecovered(s, c, second, x, profile);
    ProfileParts(s, c, second, x, profile);
    MoreIsAnswered(s, c, second, x, profile, 0);
    MoreIsAnswered(s, c, second, x, profile, 1);
    TwoMappedPorts(x.more.replies);
    InGroupOfFive(Heard(x, 1), Heard(x, 2), Heard(x, 3), Heard(x, 4));
    hide InGroup, AnsweredBy, Heard;
    assert PortSequence(profile.mapping, ObservationsOf(TAGS, x.first.replies), MappedPorts(x.more.replies)) ==
      [Heard(x, 1).port] + (if s.mapping.AddressPortDependent? then [Heard(x, 2).port] else [])
      + [Heard(x, 3).port, More(x, 0), More(x, 1)];
  }

  // ----- address-dependent mapping -----

  /**
   An address-dependent NAT is always reported as linear, whatever its allocation: the two mappings alternate,
   and the reported step is just the distance between them.
   */
  lemma AddressDependentIsReportedLinear(s: SimState, c: Addr, second: Addr, x: Session, profile: Profile)
    requires Valid(s) && Detects(s, c, second, x, profile) && SettledThrough(x, c) && s.mapping.AddressDependent?
    ensures |x.first.replies| == 5 && x.first.replies[1].Some? && x.first.replies[3].Some?
    ensures (profile.allocation, profile.step) == (LinearStep, Heard(x, 3).port - Heard(x, 1).port)
  {
    hide Detects, Valid, SettledThrough, ClassifyMapping, ClassifyAllocation, ObservationsOf, Targets, MappedPorts, Dedup, Conclude;
    SequenceIsHeard(s, c, second, x, profile);
    ProfileParts(s, c, second, x, profile);
    MoreIsAnswered(s, c, second, x, profile, 0);
    MoreIsAnswered(s, c, second, x, profile, 1);
    SameTargets(s, x.more.path[x.more.at[0] + 1]);
    AlternatingKeys(s, x.more.path[x.more.at[0] + 1], c);
    AlternatingKeys(s, x.more.path[x.more.at[1] + 1], c);
    hide KeyOf, ObserverVip;
    var p := [Heard(x, 1).port] + [] + [Heard(x, 3).port, More(x, 0), More(x, 1)];
    assert p == [Heard(x, 1).port, Heard(x, 3).port, Heard(x, 1).port, Heard(x, 3).port];
    Alternating(p, Heard(x, 1).port, Heard(x, 3).port);
  }

  lemma AlternatingKeys(s: SimState, v: SimState, c: Addr)
    requires s.mapping.AddressDependent? && SameOptions(s, v)
    ensures var t := Targets(s);
      && KeyOf(v, Ask(c, t[3], 0)) == KeyOf(v, Ask(c, t[0], 0)) && KeyOf(v, Ask(c, t[4], 0)) == KeyOf(v, Ask(c, t[2], 0))
  {
    TargetsAre(s);
    hide Targets;
  }

  // ----- linear allocation -----

  /** The next `n` ports of the linear walk, none wrapped and none taken. */
  ghost predicate RoomAhead(s: SimState, n: nat) {
    && s.allocation.Linear? && s.step != 0
    && forall i | 0 <= i < n :: s.portBase <= AheadPort(s, i) < s.portBase + s.portPool && !Taken(s, AheadPort(s, i))
  }

  function AheadPort(s: SimState, i: nat): int {
    s.nextPort + i * s.step
  }

  function AddKey(keys: seq<SimKey>, k: SimKey): seq<SimKey> {
    if k in keys then keys else keys + [k]
  }

  /** `s` is `s0` with `keys` mapped, in this order, to the next of the `n` free ports of the walk, and maybe some opened. */
  ghost predicate Laid(s0: SimState, s: SimState, keys: seq<SimKey>, n: nat) {
    && Valid(s) && SameOptions(s0, s)
    && (forall p | p in s.forwarders :: p in s0.forwarders || p in s.mappingByPort)
    && (|keys| < n ==> s.nextPort == AheadPort(s0, |keys|))
    && (forall k | k in s.mappings :: k in s0.mappings || k in keys)
    && (forall i | 0 <= i < |keys| :: keys[i] in s.mappings && s.mappings[keys[i]].port == AheadPort(s0, i))
    && (forall p | p in s.mappingByPort :: p in s0.mappingByPort || exists i | 0 <= i < |keys| :: p == AheadPort(s0, i))
  }

  lemma StepsDiffer(step: int, i: nat, j: nat)
    requires step != 0 && i < j
    ensures i * step != j * step
  {
    if step > 0 { assert (j - i - 1) * step >= 0; } else { assert (j - i - 1) * step <= 0; }
    assert j * step == i * step + (j - i - 1) * step + step;
  }

  lemma AheadIsFree(s0: SimState, s: SimState, keys: seq<SimKey>, n: nat)
    requires RoomAhead(s0, n) && Laid(s0, s, keys, n) && |keys| < n
    ensures !Taken(s, s.nextPort) && s.portBase <= s.nextPort < s.portBase + s.portPool
  {
    var p := s.nextPort;
    assert !Taken(s0, AheadPort(s0, |keys|));
    assert ObserverVip(s, p) == ObserverVip(s0, p);
    hide ObserverVip, Valid;
    if p in s.mappingByPort {
      var i :| 0 <= i < |keys| && p == AheadPort(s0, i);
      StepsDiffer(s0.step, i, |keys|);
    }
  }

  lemma AllocatesAhead(s: SimState)
    requires s.portPool > 0 && s.allocation.Linear? && !Taken(s, s.nextPort)
    ensures RawAlloc(s, ALLOC_ATTEMPTS) == (Drawn(s), Some(s.nextPort))
  {
    assert Draw(s) == s.nextPort;
  }

  lemma OnRingAlready(offset: int, pool: int)
    requires 0 <= offset < pool
    ensures offset % pool == offset
  {
  }

  /** The walk moves one step as long as the next port is still on the ring. */
  lemma NextIsAhead(s0: SimState, s: SimState, i: nat, n: nat)
    requires RoomAhead(s0, n) && SameOptions(s0, s) && s.portPool > 0 && s.nextPort == AheadPort(s0, i) && i + 1 < n
    ensures Drawn(s).nextPort == AheadPort(s0, i + 1)
  {
    var p := AheadPort(s0, i + 1);
    assert (i + 1) * s0.step == i * s0.step + s0.step;
    assert s0.portBase <= p < s0.portBase + s0.portPool;
    assert s.nextPort - s.portBase + s.step == p - s.portBase;
    OnRingAlready(p - s.portBase, s.portPool);
    hide RoomAhead, AheadPort;
  }

  /** One plain request over a key the NAT had not mapped before: the key is laid on the walk, once. */
  lemma LaysKey(s0: SimState, s: SimState, keys: seq<SimKey>, n: nat, r: Request)
    requires RoomAhead(s0, n) && Laid(s0, s, keys, n) && Plain(s0, r)
    requires KeyOf(s0, r) !in s0.mappings && |AddKey(keys, KeyOf(s0, r))| <= n
    ensures Plain(s, r) && KeyOf(s, r) == KeyOf(s0, r) && !HandleStun(s, r).raised
    ensures Laid(s0, HandleStun(s, r).state, AddKey(keys, KeyOf(s0, r)), n)
  {
    OptionsDecide(s0, s, r);
    var k := KeyOf(s0, r);
    if k in keys {
      var i :| 0 <= i < |keys| && keys[i] == k;
      ReuseKeepsLaid(s0, s, keys, n, r);
    } else {
      AheadIsFree(s0, s, keys, n);
      AllocatesAhead(s);
      if |keys| + 1 < n { NextIsAhead(s0, s, |keys|, n); }
      HandleStunKeeps(s, r) by { assert !HandleStun(s, r).raised; }
      hide RawAlloc, Taken, ObserverVip, Keeps, RoomAhead;
      assert k !in s.mappings;
      FreshKeepsLaid(s0, s, keys, n, r);
    }
  }

  lemma ReuseKeepsLaid(s0: SimState, s: SimState, keys: seq<SimKey>, n: nat, r: Request)
    requires Laid(s0, s, keys, n) && Plain(s, r) && KeyOf(s, r) in s.mappings
    ensures !HandleStun(s, r).raised && Laid(s0, HandleStun(s, r).state, keys, n)
  {
    hide ObserverVip, RawAlloc;
  }

  lemma FreshKeepsLaid(s0: SimState, s: SimState, keys: seq<SimKey>, n: nat, r: Request)
    requires Laid(s0, s, keys, n) && Plain(s, r) && KeyOf(s, r) !in s.mappings && KeyOf(s, r) !in keys
    requires |keys| < n && RawAlloc(s, ALLOC_ATTEMPTS) == (Drawn(s), Some(s.nextPort))
    requires |keys| + 1 < n ==> Drawn(s).nextPort == AheadPort(s0, |keys| + 1)
    requires !HandleStun(s, r).raised && Valid(HandleStun(s, r).state)
    ensures Laid(s0, HandleStun(s, r).state, keys + [KeyOf(s, r)], n)
  {
    hide ObserverVip, RawAlloc, MappingKey;
    var k, s' := KeyOf(s, r), HandleStun(s, r).state;
    assert s'.mappingByPort == s.mappingByPort[s.nextPort := k];
    assert s'.mappings == s.mappings[k := SimMapping(r.client, ObserverVip(s, r.observer).value, r.observer, s.nextPort, false)];
    hide HandleStun, Valid;
  }

  /** What leaves the walk alone: nothing is drawn, no mapping comes, goes or moves, and only mapped ports are opened. */
  ghost predicate Quiet(s: SimState, s': SimState) {
    && Valid(s') && SameOptions(s, s') && s'.nextPort == s.nextPort
    && s'.mappingByPort == s.mappingByPort && s'.mappings.Keys == s.mappings.Keys
    && (forall k | k in s.mappings :: s'.mappings[k].port == s.mappings[k].port)
    && (forall p | p in s'.forwarders :: p in s.forwarders || p in s.mappingByPort)
  }

  /** Opening a forwarder, whoever's it is, is quiet. */
  lemma BindIsQuiet(s: SimState, key: SimKey)
    requires Valid(s) && key in s.mappings
    ensures Quiet(s, BindForwarder(s, key))
  {
  }

  /** Between the probes only forwarders open and datagrams pass over mappings that exist. */
  ghost predicate Calm(e: Exchange) {
    forall m | 0 <= m < |e.turns| && m + 1 < |e.path| && !e.turns[m].Probe? :: e.turns[m].Elsewhere? && Quiet(e.path[m], e.path[m + 1])
  }

  lemma QuietKeepsLaid(s0: SimState, s: SimState, s': SimState, keys: seq<SimKey>, n: nat)
    requires Laid(s0, s, keys, n) && Quiet(s, s')
    ensures Laid(s0, s', keys, n)
  {
    hide Valid;
  }

  /** The keys met before turn `m`, in the order in which they are met for the first time. */
  function Met(s0: SimState, e: Exchange, asks: seq<Request>, base: seq<SimKey>, m: nat): seq<SimKey>
    decreases m
  {
    if m == 0 || m > |e.turns| then base
    else
      var before := Met(s0, e, asks, base, m - 1);
      match e.turns[m - 1]
      case Probe(i) => if i < |asks| then AddKey(before, KeyOf(s0, asks[i])) else before
      case _ => before
  }

  lemma {:induction false} MetGrows(s0: SimState, e: Exchange, asks: seq<Request>, base: seq<SimKey>, m: nat, till: nat)
    requires m <= till <= |e.turns|
    ensures Met(s0, e, asks, base, m) <= Met(s0, e, asks, base, till) && base <= Met(s0, e, asks, base, m)
    decreases till
  {
    if m < till {
      MetGrows(s0, e, asks, base, m, till - 1);
    } else if m > 0 {
      MetGrows(s0, e, asks, base, m - 1, m - 1);
    }
  }

  lemma {:induction false} PathIsLaid(s0: SimState, e: Exchange, asks: seq<Request>, sockets: set<Addr>, base: seq<SimKey>, n: nat, m: nat)
    requires Exchanged(e, asks, sockets) && Calm(e) && RoomAhead(s0, n) && Laid(s0, e.path[0], base, n) && m < |e.path|
    requires forall i | 0 <= i < |asks| :: Plain(s0, asks[i]) && KeyOf(s0, asks[i]) !in s0.mappings
    requires |Met(s0, e, asks, base, |e.turns|)| <= n
    ensures Laid(s0, e.path[m], Met(s0, e, asks, base, m), n)
    decreases m
  {
    if m > 0 {
      hide Laid, RoomAhead, Quiet, KeyOf, Plain, HandleStun, Undisturbed;
      PathIsLaid(s0, e, asks, sockets, base, n, m - 1);
      MetGrows(s0, e, asks, base, m, |e.turns|);
      assert Moves(e.path[m - 1], e.turns[m - 1], e.path[m], asks, e.replies, sockets);
      match e.turns[m - 1]
      case Probe(i) => LaysKey(s0, e.path[m - 1], Met(s0, e, asks, base, m - 1), n, asks[i]);
      case _ => QuietKeepsLaid(s0, e.path[m - 1], e.path[m], Met(s0, e, asks, base, m - 1), n);
    }
  }

  // ----- the order in which keys are met -----

  ghost predicate NoRepeats(keys: seq<SimKey>) {
    forall i, j | 0 <= i < j < |keys| :: keys[i] != keys[j]
  }

  function KeysOf(s: SimState, asks: seq<Request>): (ks: seq<SimKey>)
    ensures |ks| == |asks| && forall i | 0 <= i < |asks| :: ks[i] == KeyOf(s, asks[i])
  {
    seq(|asks|, i requires 0 <= i < |asks| => KeyOf(s, asks[i]))
  }

  /** Request `i` is the first to arrive with its key. */
  ghost predicate Earliest(ks: seq<SimKey>, at: seq<nat>, i: nat) {
    i < |ks| == |at| && forall j | 0 <= j < |ks| && ks[j] == ks[i] :: at[i] <= at[j]
  }

  /** `met` holds the keys of `base` and of the requests that arrived before turn `m`, and no other, each once. */
  ghost predicate JustMet(met: seq<SimKey>, ks: seq<SimKey>, at: seq<nat>, base: seq<SimKey>, m: nat)
    requires |ks| == |at|
  {
    && NoRepeats(met)
    && (forall k | k in met :: k in base || exists i :: 0 <= i < |ks| && at[i] < m && ks[i] == k)
    && (forall i | 0 <= i < |ks| && at[i] < m :: ks[i] in met)
  }

  lemma {:induction false} MetIsJust(s0: SimState, e: Exchange, asks: seq<Request>, sockets: set<Addr>, base: seq<SimKey>, m: nat)
    requires Exchanged(e, asks, sockets) && m <= |e.turns| && NoRepeats(base)
    ensures |e.at| == |asks| && JustMet(Met(s0, e, asks, base, m), KeysOf(s0, asks), e.at, base, m)
    decreases m
  {
    var ks := KeysOf(s0, asks);
    hide KeyOf, Moves, JustMet, NoRepeats;
    if m > 0 {
      MetIsJust(s0, e, asks, sockets, base, m - 1);
      var before := Met(s0, e, asks, base, m - 1);
      match e.turns[m - 1]
      case Probe(i) =>
        assert forall j | 0 <= j < |asks| && e.at[j] == m - 1 :: j == i;
        MeetsOne(before, ks, e.at, base, m, i);
      case _ =>
        MeetsNone(before, ks, e.at, base, m);
    } else {
      NothingMetYet(base, ks, e.at);
    }
  }

  lemma NothingMetYet(base: seq<SimKey>, ks: seq<SimKey>, at: seq<nat>)
    requires |ks| == |at| && NoRepeats(base)
    ensures JustMet(base, ks, at, base, 0)
  {
  }

  lemma MeetsNone(before: seq<SimKey>, ks: seq<SimKey>, at: seq<nat>, base: seq<SimKey>, m: nat)
    requires |ks| == |at| && m > 0 && forall i | 0 <= i < |at| :: at[i] != m - 1
    requires JustMet(before, ks, at, base, m - 1)
    ensures JustMet(before, ks, at, base, m)
  {
    hide NoRepeats;
  }

  lemma MeetsOne(before: seq<SimKey>, ks: seq<SimKey>, at: seq<nat>, base: seq<SimKey>, m: nat, i: nat)
    requires |ks| == |at| && m > 0 && i < |at| && at[i] == m - 1
    requires forall j | 0 <= j < |at| && at[j] == m - 1 :: j == i
    requires JustMet(before, ks, at, base, m - 1)
    ensures JustMet(AddKey(before, ks[i]), ks, at, base, m)
  {
    assert NoRepeats(AddKey(before, ks[i]));
    hide NoRepeats;
  }

  lemma {:induction false} NoRepeatsSize(keys: seq<SimKey>)
    requires NoRepeats(keys)
    ensures |set k | k in keys| == |keys|
    decreases |keys|
  {
    if keys != [] {
      var front, last := keys[..|keys| - 1], keys[|keys| - 1];
      NoRepeatsSize(front);
      assert keys == front + [last];
      assert (set k | k in keys) == (set k | k in front) + {last};
    }
  }

  /** How many keys are mapped before that of request `i`. */
  function Place(s0: SimState, e: Exchange, asks: seq<Request>, base: seq<SimKey>, i: nat): nat
    requires i < |e.at|
  {
    |Met(s0, e, asks, base, e.at[i])|
  }

  /** Where the key of request `j`, brought first by request `i`, stands once `j` is handled. */
  lemma PlaceOf(s0: SimState, e: Exchange, asks: seq<Request>, sockets: set<Addr>, base: seq<SimKey>, i: nat, j: nat)
    requires Exchanged(e, asks, sockets) && NoRepeats(base) && j < |asks| && Earliest(KeysOf(s0, asks), e.at, i)
    requires KeysOf(s0, asks)[i] == KeysOf(s0, asks)[j] && KeysOf(s0, asks)[i] !in base
    ensures i < |e.at| == |asks| && e.at[j] < |e.turns|
    ensures var met, place := Met(s0, e, asks, base, e.at[j] + 1), Place(s0, e, asks, base, i);
      && Met(s0, e, asks, base, e.at[i] + 1) == Met(s0, e, asks, base, e.at[i]) + [KeysOf(s0, asks)[i]]
      && place < |met| && met[place] == KeysOf(s0, asks)[j]
  {
    hide KeyOf, Moves, NoRepeats;
    MetIsJust(s0, e, asks, sockets, base, e.at[i]);
    MetGrows(s0, e, asks, base, e.at[i] + 1, e.at[j] + 1);
  }

  /** Keys are mapped in the order in which they first arrive. */
  lemma PlacesAreOrdered(s0: SimState, e: Exchange, asks: seq<Request>, sockets: set<Addr>, base: seq<SimKey>, i: nat, j: nat)
    requires Exchanged(e, asks, sockets) && NoRepeats(base) && i < |asks| && j < |asks|
    requires Earliest(KeysOf(s0, asks), e.at, i) && KeysOf(s0, asks)[i] !in base
    requires e.at[i] < e.at[j]
    ensures Place(s0, e, asks, base, i) < Place(s0, e, asks, base, j)
  {
    PlaceOf(s0, e, asks, sockets, base, i, i);
    hide Moves, Met, KeyOf, Earliest;
    MetGrows(s0, e, asks, base, e.at[i] + 1, e.at[j]);
  }

  /** A calm batch of plain requests for keys not mapped before, laid on the walk behind `base`. */
  ghost predicate Lays(s0: SimState, e: Exchange, asks: seq<Request>, sockets: set<Addr>, base: seq<SimKey>, n: nat) {
    && Exchanged(e, asks, sockets) && Calm(e) && RoomAhead(s0, n) && NoRepeats(base) && Laid(s0, e.path[0], base, n)
    && (forall i | 0 <= i < |asks| :: Plain(s0, asks[i]) && KeyOf(s0, asks[i]) !in s0.mappings && KeyOf(s0, asks[i]) !in base)
    && |Met(s0, e, asks, base, |e.turns|)| <= n
  }

  lemma LaidAt(s0: SimState, e: Exchange, asks: seq<Request>, sockets: set<Addr>, base: seq<SimKey>, n: nat, m: nat)
    requires Lays(s0, e, asks, sockets, base, n) && m < |e.path|
    ensures Laid(s0, e.path[m], Met(s0, e, asks, base, m), n)
  {
    hide Exchanged, Calm, RoomAhead, Laid, NoRepeats, KeyOf, Plain, Met;
    PathIsLaid(s0, e, asks, sockets, base, n, m);
  }

  lemma LaysParts(s0: SimState, e: Exchange, asks: seq<Request>, sockets: set<Addr>, base: seq<SimKey>, n: nat, i: nat, j: nat)
    requires Lays(s0, e, asks, sockets, base, n) && j < |asks| && Earliest(KeysOf(s0, asks), e.at, i)
    ensures Exchanged(e, asks, sockets) && NoRepeats(base) && |e.path| == |e.turns| + 1 && |e.at| == |asks| == |e.replies| && i < |asks|
    ensures e.at[j] < |e.turns| && Plain(s0, asks[j]) && Plain(e.path[0], asks[j]) && KeyOf(s0, asks[i]) !in base
  {
    OptionsDecide(s0, e.path[0], asks[j]);
    hide KeyOf, Plain, RoomAhead, Calm, NoRepeats, Met, Moves, Valid;
  }

  /** A request is answered with the port of the walk that its key's place names. */
  lemma HeardInPlace(s0: SimState, e: Exchange, asks: seq<Request>, sockets: set<Addr>, base: seq<SimKey>, n: nat, i: nat, j: nat)
    requires Lays(s0, e, asks, sockets, base, n) && Valid(e.path[0]) && j < |asks| && asks[j].client in sockets
    requires Earliest(KeysOf(s0, asks), e.at, i) && KeyOf(s0, asks[i]) == KeyOf(s0, asks[j])
    ensures i < |e.at| && |e.replies| == |asks| && e.replies[j].Some?
    ensures e.replies[j].value.mapped == AheadPort(s0, Place(s0, e, asks, base, i))
  {
    hide *;
    LaysParts(s0, e, asks, sockets, base, n, i, j);
    PlaceOf(s0, e, asks, sockets, base, i, j);
    var m := e.at[j] + 1;
    AnswerStays(e, asks, sockets, j, m);
    LaidAt(s0, e, asks, sockets, base, n, m);
    AnswerIsLaid(s0, e.path[m], Met(s0, e, asks, base, m), n, Place(s0, e, asks, base, i), asks[j], e.replies[j]);
  }

  lemma AnswerIsLaid(s0: SimState, s: SimState, keys: seq<SimKey>, n: nat, place: nat, r: Request, reply: Option<Reply>)
    requires Laid(s0, s, keys, n) && Plain(s0, r) && AnsweredBy(s, r, reply)
    requires place < |keys| && keys[place] == KeyOf(s0, r)
    ensures reply.Some? && reply.value.mapped == AheadPort(s0, place)
  {
    OptionsDecide(s0, s, r);
    hide KeyOf, ObserverVip, Valid;
  }

  /** The whole batch is met in the end: `base`, and the new keys, each once. */
  lemma AllAreMet(s0: SimState, e: Exchange, asks: seq<Request>, sockets: set<Addr>, base: seq<SimKey>, news: set<SimKey>)
    requires Exchanged(e, asks, sockets) && NoRepeats(base)
    requires forall k :: k in news <==> k in KeysOf(s0, asks)
    ensures var met := Met(s0, e, asks, base, |e.turns|);
      |met| <= |(set k | k in base) + news| && NoRepeats(met) && (forall k | k in met :: k in base || k in news)
      && (base == [] ==> |met| == |news|)
  {
    hide KeyOf, Moves;
    MetIsJust(s0, e, asks, sockets, base, |e.turns|);
    var met := Met(s0, e, asks, base, |e.turns|);
    hide Met;
    NoRepeatsSize(met);
    hide NoRepeats;
    var all := set k | k in met;
    assert all <= (set k | k in base) + news;
    SubsetSize(all, (set k | k in base) + news);
    if base == [] {
      forall k | k in news ensures k in all {
        var i :| 0 <= i < |asks| && KeysOf(s0, asks)[i] == k;
      }
      assert all == news;
    }
  }

  lemma {:induction false} SubsetSize(a: set<SimKey>, b: set<SimKey>)
    requires a <= b
    ensures |a| <= |b|
  {
    assert b == a + (b - a);
  }

  // ----- the probes on the walk -----

  /** Nothing of the two sockets is mapped yet, and the `n` ports they may need are next on the walk and free. */
  ghost predicate Untouched(s: SimState, c: Addr, second: Addr, n: nat) {
    && RoomAhead(s, n)
    && KeyOf(s, Ask(second, Targets(s)[0], 0)) !in s.mappings
    && forall i | 0 <= i < 5 :: KeyOf(s, Ask(c, Targets(s)[i], 0)) !in s.mappings
  }

  lemma NothingLaid(s: SimState, n: nat)
    requires Valid(s)
    ensures Laid(s, s, [], n)
  {
  }

  /** The keys of the first batch. */
  function FirstKeys(s: SimState, c: Addr, second: Addr): seq<SimKey> {
    KeysOf(s, FirstAsks(s, c, second))
  }

  lemma FirstKeysAre(s: SimState, c: Addr, second: Addr)
    ensures var t := Targets(s);
      var k0, k1, k2, q := KeyOf(s, Ask(c, t[0], 0)), KeyOf(s, Ask(c, t[1], 0)), KeyOf(s, Ask(c, t[2], 0)), KeyOf(s, Ask(second, t[0], 0));
      FirstKeys(s, c, second) == [k0, k0, k1, k2, q]
  {
    hide KeyOf, Targets;
  }

  lemma FirstAreNew(s: SimState, c: Addr, second: Addr, n: nat)
    requires Untouched(s, c, second, n)
    ensures forall i | 0 <= i < 5 :: KeyOf(s, FirstAsks(s, c, second)[i]) !in s.mappings
  {
    hide KeyOf, RoomAhead, Targets;
  }

  /** The first batch is laid on the walk, one port for each of its different keys. */
  lemma FirstLays(s: SimState, c: Addr, second: Addr, x: Session, profile: Profile, n: nat, news: set<SimKey>)
    requires Valid(s) && Detects(s, c, second, x, profile) && Untouched(s, c, second, n) && Calm(x.first)
    requires |news| <= n && forall k :: k in news <==> k in FirstKeys(s, c, second)
    ensures Lays(s, x.first, FirstAsks(s, c, second), {c, second}, [], n)
    ensures |Met(s, x.first, FirstAsks(s, c, second), [], |x.first.turns|)| == |news|
    ensures NoRepeats(Met(s, x.first, FirstAsks(s, c, second), [], |x.first.turns|))
    ensures forall k | k in Met(s, x.first, FirstAsks(s, c, second), [], |x.first.turns|) :: k in news
  {
    FirstAreNew(s, c, second, n);
    FirstExchange(s, c, second, x, profile);
    NothingLaid(s, n);
    assert RoomAhead(s, n);
    assert NoRepeats([]);
    hide Untouched, Detects, Valid, FirstAsks, KeyOf, Exchanged, Laid, RoomAhead, Plain, Calm, Met, NoRepeats;
    AllAreMet(s, x.first, FirstAsks(s, c, second), {c, second}, [], news);
  }

  /** The probe to the main target that arrives first. */
  function Foremost(at: seq<nat>): nat
    requires |at| >= 2
  {
    if at[0] <= at[1] then 0 else 1
  }

  /** Against an address- and port-dependent NAT every probe but the repeated one brings a key of its own. */
  lemma SymmetricKeysDiffer(s: SimState, c: Addr, second: Addr)
    requires s.mapping.AddressPortDependent? && c != second && s.vipSelf != VIP_C
    ensures var t := Targets(s);
      var q := KeyOf(s, Ask(second, t[0], 0));
      && (forall i, j | 0 <= i < j < 5 :: KeyOf(s, Ask(c, t[i], 0)) != KeyOf(s, Ask(c, t[j], 0)))
      && (forall i | 0 <= i < 5 :: KeyOf(s, Ask(c, t[i], 0)) != q)
  {
    TargetsAre(s);
    hide Targets;
  }

  lemma SymmetricEarliest(ks: seq<SimKey>, at: seq<nat>)
    requires |ks| == |at| == 5 && ks[0] == ks[1] && forall i, j | 1 <= i < j < 5 :: ks[i] != ks[j]
    ensures Earliest(ks, at, Foremost(at)) && Earliest(ks, at, 2) && Earliest(ks, at, 3) && Earliest(ks, at, 4)
  {
  }

  lemma ArrivalsDiffer(e: Exchange, asks: seq<Request>, sockets: set<Addr>)
    requires Exchanged(e, asks, sockets)
    ensures |e.at| == |asks| && forall i, j | 0 <= i < j < |asks| :: e.at[i] != e.at[j]
    ensures forall i | 0 <= i < |asks| :: e.at[i] < |e.turns|
  {
    hide Moves;
    forall i, j | 0 <= i < j < |asks| ensures e.at[i] != e.at[j] {
      assert e.turns[e.at[i]] == Probe(i) && e.turns[e.at[j]] == Probe(j);
    }
  }

  /** The place of every key is one of those the batch fills. */
  lemma PlaceIsFilled(s0: SimState, e: Exchange, asks: seq<Request>, sockets: set<Addr>, base: seq<SimKey>, n: nat, i: nat)
    requires Lays(s0, e, asks, sockets, base, n) && i < |asks| && Earliest(KeysOf(s0, asks), e.at, i)
    ensures |e.at| == |asks| && |base| <= Place(s0, e, asks, base, i) < |Met(s0, e, asks, base, |e.turns|)|
  {
    hide KeyOf, Plain, RoomAhead, Calm, NoRepeats, Met, Moves, Laid, Earliest;
    PlaceOf(s0, e, asks, sockets, base, i, i);
    MetGrows(s0, e, asks, base, e.at[i], |e.turns|);
    MetGrows(s0, e, asks, base, e.at[i] + 1, |e.turns|);
  }

  /** Two places compare as the arrivals do. */
  lemma PlacesCompare(s0: SimState, e: Exchange, asks: seq<Request>, sockets: set<Addr>, base: seq<SimKey>, n: nat, i: nat, j: nat)
    requires Lays(s0, e, asks, sockets, base, n) && i < |asks| && j < |asks| && i != j
    requires Earliest(KeysOf(s0, asks), e.at, i) && Earliest(KeysOf(s0, asks), e.at, j)
    ensures |e.at| == |asks| && e.at[i] != e.at[j]
    ensures Place(s0, e, asks, base, i) < Place(s0, e, asks, base, j) <==> e.at[i] < e.at[j]
    ensures Place(s0, e, asks, base, j) < Place(s0, e, asks, base, i) <==> e.at[j] < e.at[i]
  {
    ArrivalsDiffer(e, asks, sockets);
    hide KeyOf, Plain, RoomAhead, Calm, NoRepeats, Met, Moves, Laid, Earliest, Place;
    if e.at[i] < e.at[j] {
      PlacesAreOrdered(s0, e, asks, sockets, base, i, j);
    } else {
      PlacesAreOrdered(s0, e, asks, sockets, base, j, i);
    }
  }

  // ----- the step of an address-dependent NAT -----

  /** The main socket's first probe to the main server address to arrive. */
  function Vanguard(at: seq<nat>): (i: nat)
    requires |at| >= 3
    ensures i < 3 && at[i] <= at[0] && at[i] <= at[1] && at[i] <= at[2]
  {
    if at[0] <= at[1] && at[0] <= at[2] then 0 else if at[1] <= at[2] then 1 else 2
  }

  lemma AddressKeys(s: SimState, c: Addr, second: Addr)
    requires s.mapping.AddressDependent? && c != second && s.vipSelf != VIP_C
    ensures var ks := FirstKeys(s, c, second);
      |ks| == 5 && ks[0] == ks[1] == ks[2] && ks[3] != ks[0] && ks[4] != ks[0] && ks[3] != ks[4]
  {
    FirstKeysAre(s, c, second);
    TargetsAre(s);
    hide Targets, FirstKeys;
  }

  lemma AddressEarliest(ks: seq<SimKey>, at: seq<nat>)
    requires |ks| == |at| == 5 && ks[0] == ks[1] == ks[2] && ks[3] != ks[0] && ks[4] != ks[0] && ks[3] != ks[4]
    ensures Earliest(ks, at, Vanguard(at)) && Earliest(ks, at, 3) && Earliest(ks, at, 4)
    ensures forall i | 0 <= i < 3 :: ks[i] == ks[Vanguard(at)]
  {
  }

  lemma AddressLays(s: SimState, c: Addr, second: Addr, x: Session, profile: Profile)
    requires Valid(s) && Detects(s, c, second, x, profile) && s.mapping.AddressDependent?
    requires Untouched(s, c, second, 3) && Calm(x.first)
    ensures var asks, e := FirstAsks(s, c, second), x.first;
      && |e.at| == 5 && |e.replies| == 5 && e.path != [] && Valid(e.path[0])
      && Lays(s, e, asks, {c, second}, [], 3) && |Met(s, e, asks, [], |e.turns|)| == 3
      && var v := Vanguard(e.at);
      && Earliest(KeysOf(s, asks), e.at, v) && Earliest(KeysOf(s, asks), e.at, 3) && Earliest(KeysOf(s, asks), e.at, 4)
      && KeyOf(s, asks[v]) == KeyOf(s, asks[1])
  {
    assert s.vipSelf != VIP_C;
    hide *;
    FirstExchange(s, c, second, x, profile);
    AddressKeys(s, c, second);
    var asks, ks := FirstAsks(s, c, second), FirstKeys(s, c, second);
    FirstKeysOf(s, c, second);
    AddressEarliest(ks, x.first.at);
    var news := ThreeIn(ks);
    FirstLays(s, c, second, x, profile, 3, news);
  }

  lemma ThreeIn(ks: seq<SimKey>) returns (news: set<SimKey>)
    requires |ks| == 5 && ks[0] == ks[1] == ks[2] && ks[3] != ks[0] && ks[4] != ks[0] && ks[3] != ks[4]
    ensures |news| == 3 && forall k :: k in news <==> k in ks
  {
    news := {ks[0], ks[3], ks[4]};
  }

  lemma FourIn(ks: seq<SimKey>) returns (news: set<SimKey>)
    requires |ks| == 5 && ks[0] == ks[1] && forall i, j | 1 <= i < j < 5 :: ks[i] != ks[j]
    ensures |news| == 4 && forall k :: k in news <==> k in ks
  {
    news := {ks[1], ks[2], ks[3], ks[4]};
  }

  lemma FirstKeysOf(s: SimState, c: Addr, second: Addr)
    ensures FirstKeys(s, c, second) == KeysOf(s, FirstAsks(s, c, second))
  {
    hide KeysOf, FirstAsks;
  }

  lemma HeardPort(x: Session, i: nat)
    requires i < |x.first.replies| && x.first.replies[i].Some?
    ensures Heard(x, i).port == x.first.replies[i].value.mapped
  {
  }

  /** The three places of the first batch, in order of arrival. */
  lemma AddressPlaces(s: SimState, c: Addr, second: Addr, x: Session, profile: Profile)
    requires Valid(s) && Detects(s, c, second, x, profile) && s.mapping.AddressDependent?
    requires Untouched(s, c, second, 3) && Calm(x.first)
    ensures |x.first.at| == 5 && |x.first.replies| == 5 && x.first.replies[1].Some? && x.first.replies[3].Some?
    ensures var asks, at, v := FirstAsks(s, c, second), x.first.at, Vanguard(x.first.at);
      var a, b, o := Place(s, x.first, asks, [], v), Place(s, x.first, asks, [], 3), Place(s, x.first, asks, [], 4);
      && Heard(x, 1).port == AheadPort(s, a) && Heard(x, 3).port == AheadPort(s, b)
      && a < 3 && b < 3 && o < 3 && at[3] != at[v] && at[4] != at[v] && at[3] != at[4]
      && (a < b <==> at[v] < at[3]) && (a < o <==> at[v] < at[4]) && (o < b <==> at[4] < at[3])
      && a != b && a != o && b != o
  {
    hide *;
    AddressLays(s, c, second, x, profile);
    var asks, sockets, e := FirstAsks(s, c, second), {c, second}, x.first;
    var v := Vanguard(e.at);
    HeardInPlace(s, e, asks, sockets, [], 3, v, 1);
    HeardInPlace(s, e, asks, sockets, [], 3, 3, 3);
    HeardPort(x, 1);
    HeardPort(x, 3);
    PlaceIsFilled(s, e, asks, sockets, [], 3, v);
    PlaceIsFilled(s, e, asks, sockets, [], 3, 3);
    PlaceIsFilled(s, e, asks, sockets, [], 3, 4);
    PlacesCompare(s, e, asks, sockets, [], 3, v, 3);
    PlacesCompare(s, e, asks, sockets, [], 3, v, 4);
    PlacesCompare(s, e, asks, sockets, [], 3, 4, 3);
  }

  lemma PlacesApart(s: SimState, a: nat, b: nat, o: nat)
    requires a < 3 && b < 3 && o < 3 && a != b && a != o && b != o
    ensures AheadPort(s, b) - AheadPort(s, a) ==
      (if a < b then 1 else -1) * (if a < o < b || b < o < a then 2 else 1) * s.step
  {
    assert AheadPort(s, 0) == s.nextPort && AheadPort(s, 1) == s.nextPort + s.step && AheadPort(s, 2) == s.nextPort + 2 * s.step;
    hide AheadPort;
  }

  /**
   Against an address-dependent NAT that allocates linearly the reported step is the NAT's own exactly when the main
   socket's address comes to the NAT before the other one, with the second socket's probe not between them: it changes
   its sign when they come the other way round, and doubles when the second socket's probe comes between.
   */
  lemma AddressDependentStep(s: SimState, c: Addr, second: Addr, x: Session, profile: Profile)
    requires Valid(s) && Detects(s, c, second, x, profile) && s.mapping.AddressDependent?
    requires Untouched(s, c, second, 3) && Calm(x.first) && SettledThrough(x, c)
    ensures |x.first.at| == 5 && profile.allocation == LinearStep
    ensures var at, v := x.first.at, Vanguard(x.first.at);
      profile.step == (if at[v] < at[3] then 1 else -1) * (if at[v] < at[4] < at[3] || at[3] < at[4] < at[v] then 2 else 1) * s.step
  {
    hide *;
    AddressDependentIsReportedLinear(s, c, second, x, profile);
    AddressPlaces(s, c, second, x, profile);
    var asks, v := FirstAsks(s, c, second), Vanguard(x.first.at);
    PlacesApart(s, Place(s, x.first, asks, [], v), Place(s, x.first, asks, [], 3), Place(s, x.first, asks, [], 4));
  }

  // ----- the step of an address- and port-dependent NAT -----

  lemma SymmetricFirstKeys(s: SimState, c: Addr, second: Addr)
    requires s.mapping.AddressPortDependent? && c != second && s.vipSelf != VIP_C
    ensures var ks := FirstKeys(s, c, second);
      |ks| == 5 && ks[0] == ks[1] && forall i, j | 1 <= i < j < 5 :: ks[i] != ks[j]
  {
    FirstKeysAre(s, c, second);
    SymmetricKeysDiffer(s, c, second);
    hide KeyOf, Targets, FirstKeys;
  }

  lemma SymmetricLays(s: SimState, c: Addr, second: Addr, x: Session, profile: Profile)
    requires Valid(s) && Detects(s, c, second, x, profile) && s.mapping.AddressPortDependent?
    requires Untouched(s, c, second, 6) && Calm(x.first)
    ensures var asks, e := FirstAsks(s, c, second), x.first;
      && |e.at| == 5 && |e.replies| == 5 && |e.path| == |e.turns| + 1 && Valid(e.path[0])
      && Lays(s, e, asks, {c, second}, [], 6)
      && var v := Foremost(e.at);
      && v < 2 && Earliest(KeysOf(s, asks), e.at, v) && Earliest(KeysOf(s, asks), e.at, 2) && Earliest(KeysOf(s, asks), e.at, 3)
      && KeyOf(s, asks[v]) == KeyOf(s, asks[1])
      && var met := Met(s, e, asks, [], |e.turns|);
      && |met| == 4 && NoRepeats(met) && forall k | k in met :: k in FirstKeys(s, c, second)
  {
    assert s.vipSelf != VIP_C;
    hide *;
    FirstExchange(s, c, second, x, profile);
    SymmetricFirstKeys(s, c, second);
    var asks, ks := FirstAsks(s, c, second), FirstKeys(s, c, second);
    FirstKeysOf(s, c, second);
    SymmetricEarliest(ks, x.first.at);
    var news := FourIn(ks);
    FirstLays(s, c, second, x, profile, 6, news);
  }

  /** The four places of the first batch, in order of arrival. */
  lemma SymmetricPlaces(s: SimState, c: Addr, second: Addr, x: Session, profile: Profile)
    requires Valid(s) && Detects(s, c, second, x, profile) && s.mapping.AddressPortDependent?
    requires Untouched(s, c, second, 6) && Calm(x.first)
    ensures |x.first.at| == 5 && |x.first.replies| == 5 && forall i | 1 <= i < 4 :: x.first.replies[i].Some?
    ensures var asks, at, v := FirstAsks(s, c, second), x.first.at, Foremost(x.first.at);
      var r0, r1, r2 := Place(s, x.first, asks, [], v), Place(s, x.first, asks, [], 2), Place(s, x.first, asks, [], 3);
      && Heard(x, 1).port == AheadPort(s, r0) && Heard(x, 2).port == AheadPort(s, r1) && Heard(x, 3).port == AheadPort(s, r2)
      && r0 < 4 && r1 < 4 && r2 < 4 && r0 != r1 && r0 != r2 && r1 != r2
      && (r0 < r1 <==> at[v] < at[2]) && (r1 < r2 <==> at[2] < at[3])
  {
    hide *;
    SymmetricLays(s, c, second, x, profile);
    var asks, sockets, e := FirstAsks(s, c, second), {c, second}, x.first;
    var v := Foremost(e.at);
    HeardInPlace(s, e, asks, sockets, [], 6, v, 1);
    HeardInPlace(s, e, asks, sockets, [], 6, 2, 2);
    HeardInPlace(s, e, asks, sockets, [], 6, 3, 3);
    HeardPort(x, 1);
    HeardPort(x, 2);
    HeardPort(x, 3);
    PlaceIsFilled(s, e, asks, sockets, [], 6, v);
    PlaceIsFilled(s, e, asks, sockets, [], 6, 2);
    PlaceIsFilled(s, e, asks, sockets, [], 6, 3);
    PlacesCompare(s, e, asks, sockets, [], 6, v, 2);
    PlacesCompare(s, e, asks, sockets, [], 6, v, 3);
    PlacesCompare(s, e, asks, sockets, [], 6, 2, 3);
  }

  lemma FinalIs(e: Exchange)
    requires |e.path| == |e.turns| + 1
    ensures Final(e) == e.path[|e.turns|]
  {
  }

  /** What the first batch leaves for the second. */
  lemma FirstLeaves(s: SimState, c: Addr, second: Addr, x: Session, profile: Profile) returns (base: seq<SimKey>)
    requires Valid(s) && Detects(s, c, second, x, profile) && s.mapping.AddressPortDependent?
    requires Untouched(s, c, second, 6) && Calm(x.first)
    ensures x.first.path != [] && Laid(s, Final(x.first), base, 6) && |base| == 4 && NoRepeats(base)
    ensures forall k | k in base :: k in FirstKeys(s, c, second)
  {
    hide *;
    SymmetricLays(s, c, second, x, profile);
    var asks, e := FirstAsks(s, c, second), x.first;
    base := Met(s, e, asks, [], |e.turns|);
    LaidAt(s, e, asks, {c, second}, [], 6, |e.turns|);
    FinalIs(e);
  }

  lemma ExtraKeysAreNew(s: SimState, c: Addr, second: Addr, n: nat, base: seq<SimKey>)
    requires s.mapping.AddressPortDependent? && c != second && s.vipSelf != VIP_C && Untouched(s, c, second, n)
    requires forall k | k in base :: k in FirstKeys(s, c, second)
    ensures var t := Targets(s);
      var k3, k4 := KeyOf(s, Ask(c, t[3], 0)), KeyOf(s, Ask(c, t[4], 0));
      k3 !in base && k4 !in base && k3 != k4 && k3 !in s.mappings && k4 !in s.mappings
  {
    SymmetricKeysDiffer(s, c, second);
    FirstKeysAre(s, c, second);
    hide KeyOf, Targets, RoomAhead, FirstKeys;
  }

  lemma ExtrasLay(s: SimState, e: Exchange, asks: seq<Request>, sockets: set<Addr>, base: seq<SimKey>)
    requires Exchanged(e, asks, sockets) && Calm(e) && RoomAhead(s, 6) && |asks| == 2
    requires e.path != [] && Laid(s, e.path[0], base, 6) && |base| == 4 && NoRepeats(base)
    requires forall i | 0 <= i < 2 :: Plain(s, asks[i]) && KeyOf(s, asks[i]) !in s.mappings && KeyOf(s, asks[i]) !in base
    ensures Lays(s, e, asks, sockets, base, 6) && |Met(s, e, asks, base, |e.turns|)| <= 6
  {
    var ks := KeysOf(s, asks);
    var news := {ks[0], ks[1]};
    hide KeyOf, Exchanged, Calm, Met, NoRepeats, Laid, RoomAhead, Plain;
    NoRepeatsSize(base);
    assert forall k :: k in news <==> k in ks;
    AllAreMet(s, e, asks, sockets, base, news);
    UnionSize((set k | k in base), news);
  }

  lemma TwoEarliest(ks: seq<SimKey>, at: seq<nat>)
    requires |ks| == |at| == 2 && ks[0] != ks[1]
    ensures Earliest(ks, at, 0) && Earliest(ks, at, 1)
  {
  }

  /** The two extra probes take the fifth and the sixth place, in order of arrival. */
  lemma ExtraPlaces(s: SimState, c: Addr, second: Addr, x: Session, asks: seq<Request>, base: seq<SimKey>)
    requires Exchanged(x.more, asks, {c, second}) && Calm(x.more) && RoomAhead(s, 6) && |asks| == 2
    requires x.more.path != [] && Valid(x.more.path[0]) && Laid(s, x.more.path[0], base, 6) && |base| == 4 && NoRepeats(base)
    requires forall i | 0 <= i < 2 ::
      Plain(s, asks[i]) && KeyOf(s, asks[i]) !in s.mappings && KeyOf(s, asks[i]) !in base && asks[i].client == c
    requires KeyOf(s, asks[0]) != KeyOf(s, asks[1])
    ensures |x.more.at| == 2 && |x.more.replies| == 2 && x.more.replies[0].Some? && x.more.replies[1].Some?
    ensures var early := x.more.at[0] < x.more.at[1];
      && More(x, 0) == AheadPort(s, if early then 4 else 5) && More(x, 1) == AheadPort(s, if early then 5 else 4)
  {
    hide *;
    var e, sockets := x.more, {c, second};
    ExtrasLay(s, e, asks, sockets, base);
    ArrivalsDiffer(e, asks, sockets);
    TwoEarliest(KeysOf(s, asks), e.at);
    HeardInPlace(s, e, asks, sockets, base, 6, 0, 0);
    HeardInPlace(s, e, asks, sockets, base, 6, 1, 1);
    PlaceIsFilled(s, e, asks, sockets, base, 6, 0);
    PlaceIsFilled(s, e, asks, sockets, base, 6, 1);
    PlacesCompare(s, e, asks, sockets, base, 6, 0, 1);
    MoreIs(x, 0);
    MoreIs(x, 1);
  }

  lemma MoreIs(x: Session, i: nat)
    requires i < |x.more.replies| && x.more.replies[i].Some?
    ensures More(x, i) == x.more.replies[i].value.mapped
  {
  }

  lemma UnionSize(a: set<SimKey>, b: set<SimKey>)
    ensures |a + b| <= |a| + |b|
  {
  }

  // ----- the verdict on six places -----

  lemma FourDiffs(p: seq<int>)
    requires |p| == 5
    ensures Diffs(p) == [p[1] - p[0], p[2] - p[1], p[3] - p[2], p[4] - p[3]]
  {
  }

  lemma CountFour(d: seq<int>, x: int)
    requires |d| == 4
    ensures Occurrences(d, x) == (if d[0] == x then 1 else 0) + (if d[1] == x then 1 else 0)
                                 + (if d[2] == x then 1 else 0) + (if d[3] == x then 1 else 0)
  {
    assert d == [d[0]] + ([d[1]] + ([d[2]] + [d[3]]));
  }

  lemma StepTimes(k: int, step: int)
    requires step != 0
    ensures k * step == step <==> k == 1
    ensures k * step == 0 <==> k == 0
  {
    if k > 1 {
      assert k * step == step + (k - 1) * step;
    }
  }

  /** At least three of the four gaps are single steps exactly when the places are in order. */
  lemma GapsCount(s: SimState, r0: nat, r1: nat, r2: nat, early: bool, p: seq<int>)
    requires s.step != 0 && r0 < 4 && r1 < 4 && r2 < 4 && r0 != r1 && r0 != r2 && r1 != r2
    requires p == [AheadPort(s, r0), AheadPort(s, r1), AheadPort(s, r2), AheadPort(s, if early then 4 else 5), AheadPort(s, if early then 5 else 4)]
    ensures Occurrences(Diffs(p), s.step) >= 3 <==> r0 < r1 < r2 && early
    ensures forall i | 0 <= i < 4 :: p[i] != p[i + 1]
  {
    hide *;
    var r3, r4 := if early then 4 else 5, if early then 5 else 4;
    FourDiffs(p);
    CountFour(Diffs(p), s.step);
    GapIs(s, r0, r1);
    GapIs(s, r1, r2);
    GapIs(s, r2, r3);
    GapIs(s, r3, r4);
  }

  /** Five different places are linear with the NAT's step exactly when they are in order. */
  lemma PlacesDecide(s: SimState, r0: nat, r1: nat, r2: nat, early: bool, p: seq<int>)
    requires s.step != 0 && r0 < 4 && r1 < 4 && r2 < 4 && r0 != r1 && r0 != r2 && r1 != r2
    requires p == [AheadPort(s, r0), AheadPort(s, r1), AheadPort(s, r2), AheadPort(s, if early then 4 else 5), AheadPort(s, if early then 5 else 4)]
    ensures ClassifyAllocation(Dedup(p)) == (LinearStep, s.step) <==> r0 < r1 < r2 && early
  {
    hide *;
    GapsCount(s, r0, r1, r2, early, p);
    DedupKeeps(p);
    FourDiffs(p);
    if Occurrences(Diffs(p), s.step) >= 3 {
      NearlyLinear(p, s.step);
    } else {
      FewGaps(p, s.step);
    }
  }

  lemma FewGaps(p: seq<int>, step: int)
    requires step != 0 && |Diffs(p)| == 4 && Occurrences(Diffs(p), step) < 3
    ensures ClassifyAllocation(p) != (LinearStep, step)
  {
    hide Diffs, Occurrences;
  }

  lemma GapIs(s: SimState, i: nat, j: nat)
    requires s.step != 0
    ensures AheadPort(s, j) - AheadPort(s, i) == s.step <==> j == i + 1
    ensures AheadPort(s, j) == AheadPort(s, i) <==> j == i
  {
    StepTimes(j - i, s.step);
    assert AheadPort(s, j) - AheadPort(s, i) == (j - i) * s.step;
  }

  // ----- the theorem -----

  lemma CalmIsSettled(x: Session, c: Addr)
    requires Calm(x.first) && Calm(x.more) && |x.first.path| == |x.first.turns| + 1 && |x.more.path| == |x.more.turns| + 1
    ensures SettledThrough(x, c)
  {
    hide Quiet, RawAlloc;
  }

  /** The probes reach the NAT in the order in which they are sent; which of the two to the main target is first is all the same. */
  predicate InOrder(x: Session)
    requires |x.first.at| == 5 && |x.more.at| == 2
  {
    var at := x.first.at;
    (at[0] < at[2] || at[1] < at[2]) && at[2] < at[3] && x.more.at[0] < x.more.at[1]
  }

  /**
   The allocation pattern is recovered too. An address- and port-dependent NAT that allocates linearly, with the next
   six ports of its walk on the ring and free, and where only forwarders open meanwhile, is reported as linear with
   its own step exactly when the main socket's probes arrive in order, wherever the second socket's one comes in.
   */
  lemma LinearStepRecovered(s: SimState, c: Addr, second: Addr, x: Session, profile: Profile)
    requires Valid(s) && Detects(s, c, second, x, profile) && s.mapping.AddressPortDependent?
    requires Untouched(s, c, second, 6) && Calm(x.first) && Calm(x.more)
    ensures |x.first.at| == 5 && |x.more.at| == 2
    ensures (profile.allocation, profile.step) == (LinearStep, s.step) <==> InOrder(x)
  {
    UntouchedParts(s, c, second, 6);
    hide *;
    FirstExchange(s, c, second, x, profile);
    SessionShape(s, c, second, x, profile);
    CalmIsSettled(x, c);
    SymmetricSequence(s, c, second, x, profile);
    SymmetricPlaces(s, c, second, x, profile);
    ExtraPorts(s, c, second, x, profile);
    var first, v := FirstAsks(s, c, second), Foremost(x.first.at);
    PlacesDecide(s, Place(s, x.first, first, [], v), Place(s, x.first, first, [], 2), Place(s, x.first, first, [], 3),
                 x.more.at[0] < x.more.at[1],
                 [Heard(x, 1).port, Heard(x, 2).port, Heard(x, 3).port, More(x, 0), More(x, 1)]);
    OrderIs(x);
  }

  /** The five ports that a NAT of this kind is judged by. */
  lemma SymmetricSequence(s: SimState, c: Addr, second: Addr, x: Session, profile: Profile)
    requires Valid(s) && Detects(s, c, second, x, profile) && SettledThrough(x, c) && s.mapping.AddressPortDependent?
    ensures |x.first.replies| == 5 && forall i | 0 <= i < 5 :: x.first.replies[i].Some?
    ensures |x.more.replies| == 2 && x.more.replies[0].Some? && x.more.replies[1].Some?
    ensures (profile.allocation, profile.step) ==
      ClassifyAllocation(Dedup([Heard(x, 1).port, Heard(x, 2).port, Heard(x, 3).port, More(x, 0), More(x, 1)]))
  {
    hide *;
    SequenceIsHeard(s, c, second, x, profile);
    assert [Heard(x, 1).port] + [Heard(x, 2).port] + [Heard(x, 3).port, More(x, 0), More(x, 1)] ==
      [Heard(x, 1).port, Heard(x, 2).port, Heard(x, 3).port, More(x, 0), More(x, 1)];
  }

  lemma UntouchedParts(s: SimState, c: Addr, second: Addr, n: nat)
    requires Untouched(s, c, second, n)
    ensures RoomAhead(s, n) && s.step != 0
  {
  }

  lemma OrderIs(x: Session)
    requires |x.first.at| == 5 && |x.more.at| == 2
    ensures var at, v := x.first.at, Foremost(x.first.at);
      v < 2 && (InOrder(x) <==> at[v] < at[2] && at[2] < at[3] && x.more.at[0] < x.more.at[1])
  {
  }

  function ExtraAsks(s: SimState, c: Addr): (r: seq<Request>)
    ensures |r| == 2
  {
    [Ask(c, Targets(s)[3], 0), Ask(c, Targets(s)[4], 0)]
  }

  lemma ExtraBatch(s: SimState, c: Addr, second: Addr, x: Session, profile: Profile)
    requires Valid(s) && Detects(s, c, second, x, profile) && s.mapping.AddressPortDependent? && Settled(x, c)
    ensures Exchanged(x.more, ExtraAsks(s, c), {c, second}) && x.more.path != [] && x.first.path != []
    ensures x.more.path[0] == Final(x.first) && Valid(Final(x.first))
    ensures |x.more.at| == 2 && |x.more.replies| == 2
  {
    hide *;
    MoreExchange(s, c, second, x, profile);
    LaterBatches(s, c, second, x, profile);
    ExtraAsksAre(s, c);
    ExchangeShape(x.more, Final(x.first), ExtraAsks(s, c), {c, second});
  }

  lemma ExtraAsksAre(s: SimState, c: Addr)
    ensures ExtraAsks(s, c) == [Ask(c, Targets(s)[3], 0), Ask(c, Targets(s)[4], 0)]
  {
  }

  lemma ExtraAsksAreNew(s: SimState, c: Addr, second: Addr, n: nat, base: seq<SimKey>)
    requires s.mapping.AddressPortDependent? && c != second && s.vipSelf != VIP_C && Untouched(s, c, second, n)
    requires forall k | k in base :: k in FirstKeys(s, c, second)
    ensures var asks := ExtraAsks(s, c);
      && KeyOf(s, asks[0]) != KeyOf(s, asks[1])
      && forall i | 0 <= i < 2 ::
           Plain(s, asks[i]) && KeyOf(s, asks[i]) !in s.mappings && KeyOf(s, asks[i]) !in base && asks[i].client == c
  {
    ExtraKeysAreNew(s, c, second, n, base);
    ExtrasArePlainHere(s, c);
    hide *;
    ExtraAsksAre(s, c);
  }

  lemma ExtraPorts(s: SimState, c: Addr, second: Addr, x: Session, profile: Profile)
    requires Valid(s) && Detects(s, c, second, x, profile) && s.mapping.AddressPortDependent?
    requires Untouched(s, c, second, 6) && Calm(x.first) && Calm(x.more) && SettledThrough(x, c)
    ensures |x.more.at| == 2 && |x.more.replies| == 2 && x.more.replies[0].Some? && x.more.replies[1].Some?
    ensures var early := x.more.at[0] < x.more.at[1];
      && More(x, 0) == AheadPort(s, if early then 4 else 5) && More(x, 1) == AheadPort(s, if early then 5 else 4)
  {
    UntouchedParts(s, c, second, 6);
    assert s.vipSelf != VIP_C;
    hide *;
    ThroughIsSettled(x, c);
    FirstExchange(s, c, second, x, profile);
    ExtraBatch(s, c, second, x, profile);
    var base := FirstLeaves(s, c, second, x, profile);
    ExtraAsksAreNew(s, c, second, 6, base);
    ExtraPlaces(s, c, second, x, ExtraAsks(s, c), base);
  }

  lemma ExtrasArePlainHere(s: SimState, c: Addr)
    ensures forall i | 3 <= i < 5 :: Plain(s, Ask(c, Targets(s)[i], 0))
  {
    ExtrasArePlain(s, s, c);
  }

  lemma SessionShape(s: SimState, c: Addr, second: Addr, x: Session, profile: Profile)
    requires Valid(s) && Detects(s, c, second, x, profile)
    ensures |x.more.path| == |x.more.turns| + 1
  {
    hide MoreBatch, FirstBatch, Targets, ObservationsOf, Conclude, Moves;
  }
}
