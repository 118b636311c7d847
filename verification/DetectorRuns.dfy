/**
 The detector at work on the simulated NAT. A batch of requests reaches the NAT in any order, mixed with whatever else
 happens there; every answer the NAT's filter lets through arrives.
 */
module DetectorRuns {
  import opened Wrappers
  import opened SimNat
  import opened Detector

  const LOOPBACK: nat := 1
  const SEQUENCE_LENGTH := 4

  /** What happens next: request `i` of the batch, a busy port for one of the detector's own mappings, or anything else. */
  datatype Turn = Probe(i: nat) | Rebind(key: SimKey) | Elsewhere

  /** The states the NAT goes through, the turn that leads from each to the next, and when and how request `i` is answered. */
  datatype Exchange = Exchange(path: seq<SimState>, turns: seq<Turn>, at: seq<nat>, replies: seq<Option<Reply>>)

  /**
   What the rest of the world may do: create, bind and rebind other clients' mappings and draw ports for them, and bind
   the detector's own mappings. Those stay, at their ports.
   */
  ghost predicate Undisturbed(s: SimState, s': SimState, sockets: set<Addr>) {
    && Valid(s') && SameOptions(s, s')
    && forall k | k in s.mappings && k.client in sockets :: k in s'.mappings && s'.mappings[k].port == s.mappings[k].port
  }

  ghost predicate Moves(s: SimState, turn: Turn, s': SimState, asks: seq<Request>, replies: seq<Option<Reply>>, sockets: set<Addr>) {
    match turn
    case Probe(i) =>
      && i < |asks| && i < |replies| && s.portPool > 0 && !HandleStun(s, asks[i]).raised
      && s' == HandleStun(s, asks[i]).state && replies[i] == HandleStun(s, asks[i]).reply
    case Rebind(key) =>
      s.portPool > 0 && key in s.mappings && key.client in sockets && !s.mappings[key].bound && s' == RebindForwarder(s, key)
    case Elsewhere => Undisturbed(s, s', sockets)
  }

  /** Every request of the batch reaches the NAT once, in whatever order. */
  ghost predicate Exchanged(e: Exchange, asks: seq<Request>, sockets: set<Addr>) {
    && |e.path| == |e.turns| + 1 && |e.at| == |asks| && |e.replies| == |asks|
    && (forall i | 0 <= i < |asks| :: e.at[i] < |e.turns| && e.turns[e.at[i]] == Probe(i))
    && (forall m | 0 <= m < |e.turns| && e.turns[m].Probe? :: e.turns[m].i < |asks| && e.at[e.turns[m].i] == m)
    && (forall m | 0 <= m < |e.turns| :: Moves(e.path[m], e.turns[m], e.path[m + 1], asks, e.replies, sockets))
  }

  function Final(e: Exchange): SimState
    requires e.path != []
  {
    e.path[|e.path| - 1]
  }

  // ----- what one turn keeps -----

  /** The mappings of one client stay, at their ports. */
  ghost predicate KeepsOf(s: SimState, s': SimState, c: Addr) {
    && SameOptions(s, s')
    && forall k | k in s.mappings && k.client == c :: k in s'.mappings && s'.mappings[k].port == s.mappings[k].port
  }

  /** A rebind keeps the table and its index inverse, and moves its mapping exactly when a port is found. */
  lemma RebindMoves(s: SimState, key: SimKey)
    requires Valid(s) && key in s.mappings
    ensures var s' := RebindForwarder(s, key);
      && Valid(s') && SameOptions(s, s') && s'.mappings.Keys == s.mappings.Keys
      && (forall k | k in s.mappings && k != key :: s'.mappings[k] == s.mappings[k])
      && (s'.mappings[key].port == s.mappings[key].port <==> RawAlloc(s, ALLOC_ATTEMPTS).1.None?)
  {
    RawAllocFinds(s, ALLOC_ATTEMPTS);
    var (s', p) := RawAlloc(s, ALLOC_ATTEMPTS);
    hide RawAlloc;
    if p.Some? {
      MovedTableIsValid(s, RebindForwarder(s, key), key, p.value);
      hide Valid, Taken;
    } else {
      hide Taken;
    }
  }

  lemma MovedTableIsValid(s: SimState, s': SimState, key: SimKey, port: int)
    requires Valid(s) && SameOptions(s, s') && key in s.mappings && port !in s.mappingByPort
    requires s'.mappings == s.mappings[key := s.mappings[key].(port := port)]
    requires s'.mappingByPort == (s.mappingByPort - {s.mappings[key].port})[port := key]
    ensures Valid(s') && port != s.mappings[key].port
  {
  }

  /** Another client's rebind is one of the things that may happen meanwhile; so is a bind. */
  lemma RebindElsewhere(s: SimState, key: SimKey, sockets: set<Addr>)
    requires Valid(s) && key in s.mappings && key.client !in sockets
    ensures Undisturbed(s, RebindForwarder(s, key), sockets)
  {
    RebindMoves(s, key);
    hide RebindForwarder;
  }

  lemma BindElsewhere(s: SimState, key: SimKey, sockets: set<Addr>)
    requires Valid(s) && key in s.mappings
    ensures Undisturbed(s, BindForwarder(s, key), sockets)
  {
  }

  lemma MoveKeeps(s: SimState, turn: Turn, s': SimState, asks: seq<Request>, replies: seq<Option<Reply>>, sockets: set<Addr>, c: Addr)
    requires Valid(s) && Moves(s, turn, s', asks, replies, sockets) && c in sockets
    ensures Valid(s') && SameOptions(s, s')
    ensures s.portPool > 0
    ensures !(turn.Rebind? && turn.key.client == c && RawAlloc(s, ALLOC_ATTEMPTS).1.Some?) ==> KeepsOf(s, s', c)
  {
    match turn
    case Probe(i) =>
      HandleStunKeeps(s, asks[i]);
      hide HandleStun, Valid;
    case Rebind(key) =>
      RebindMoves(s, key);
      hide RebindForwarder, Valid, RawAlloc;
    case Elsewhere => hide Valid;
  }

  /** In turn `m` a mapping of `c` finds its port busy, and another port for it. */
  ghost predicate Rebinds(e: Exchange, m: nat, c: Addr) {
    && m < |e.turns| && m < |e.path| && e.turns[m].Rebind? && e.turns[m].key.client == c
    && e.path[m].portPool > 0 && RawAlloc(e.path[m], ALLOC_ATTEMPTS).1.Some?
  }

  lemma {:induction false} PathKeeps(e: Exchange, asks: seq<Request>, sockets: set<Addr>, c: Addr, i: nat, j: nat)
    requires Exchanged(e, asks, sockets) && c in sockets && i <= j < |e.path| && Valid(e.path[i])
    ensures Valid(e.path[j]) && SameOptions(e.path[i], e.path[j])
    ensures (forall m | i <= m < j :: !Rebinds(e, m, c)) ==> KeepsOf(e.path[i], e.path[j], c)
    decreases j
  {
    hide Valid, SameOptions, KeepsOf, Moves, RawAlloc;
    if i < j {
      PathKeeps(e, asks, sockets, c, i, j - 1);
      MoveKeeps(e.path[j - 1], e.turns[j - 1], e.path[j], asks, e.replies, sockets, c);
      KeepsChain(e.path[i], e.path[j - 1], e.path[j], c);
      if forall m | i <= m < j :: !Rebinds(e, m, c) {
        assert !Rebinds(e, j - 1, c);
      }
    } else {
      KeepsSelf(e.path[i], c);
    }
  }

  lemma KeepsChain(s: SimState, s': SimState, s'': SimState, c: Addr)
    ensures SameOptions(s, s') && SameOptions(s', s'') ==> SameOptions(s, s'')
    ensures KeepsOf(s, s', c) && KeepsOf(s', s'', c) ==> KeepsOf(s, s'', c)
  {
  }

  lemma KeepsSelf(s: SimState, c: Addr)
    ensures SameOptions(s, s) && KeepsOf(s, s, c)
  {
  }

  // ----- plain requests -----

  /** The key of the mapping a request is sent over. */
  function KeyOf(s: SimState, r: Request): SimKey {
    MappingKey(s, r.client, if ObserverVip(s, r.observer).Some? then ObserverVip(s, r.observer).value else 0, r.observer)
  }

  predicate Plain(s: SimState, r: Request) {
    r.change == 0 && ObserverVip(s, r.observer).Some?
  }

  /** A plain request is answered from where it was sent, with the port its mapping has. */
  ghost predicate AnsweredBy(s: SimState, r: Request, reply: Option<Reply>) {
    && ObserverVip(s, r.observer).Some? && KeyOf(s, r) in s.mappings
    && reply == Some(Reply(r.observer, s.mappings[KeyOf(s, r)].port))
  }

  lemma OptionsDecide(s: SimState, s': SimState, r: Request)
    requires SameOptions(s, s')
    ensures Plain(s', r) == Plain(s, r) && ObserverVip(s', r.observer) == ObserverVip(s, r.observer)
    ensures Plain(s, r) ==> KeyOf(s', r) == KeyOf(s, r)
  {
  }

  /** What a plain request is answered with is in the table right after. */
  lemma PlainAnswer(s: SimState, r: Request)
    requires Valid(s) && Plain(s, r) && !HandleStun(s, r).raised
    ensures AnsweredBy(HandleStun(s, r).state, r, HandleStun(s, r).reply)
  {
    HandleStunKeeps(s, r);
    OptionsDecide(s, HandleStun(s, r).state, r);
    hide HandleStun, Valid;
  }

  /** And it stays so until the client's mappings are rebound. */
  lemma AnswerStays(e: Exchange, asks: seq<Request>, sockets: set<Addr>, i: nat, j: nat)
    requires Exchanged(e, asks, sockets) && Valid(e.path[0]) && i < |asks| && asks[i].client in sockets && Plain(e.path[0], asks[i])
    requires e.at[i] < j < |e.path| && forall m | e.at[i] < m < j :: !Rebinds(e, m, asks[i].client)
    ensures AnsweredBy(e.path[j], asks[i], e.replies[i])
  {
    var m, r, c := e.at[i], asks[i], asks[i].client;
    hide Valid, KeepsOf, HandleStun, AnsweredBy, Plain, SameOptions;
    PathKeeps(e, asks, sockets, c, 0, m);
    OptionsDecide(e.path[0], e.path[m], r);
    assert Moves(e.path[m], e.turns[m], e.path[m + 1], asks, e.replies, sockets);
    PlainAnswer(e.path[m], r);
    PathKeeps(e, asks, sockets, c, 0, m + 1);
    PathKeeps(e, asks, sockets, c, m + 1, j);
    StillAnswered(e.path[m + 1], e.path[j], r, e.replies[i]);
  }

  lemma StillAnswered(s: SimState, s': SimState, r: Request, reply: Option<Reply>)
    requires KeepsOf(s, s', r.client) && AnsweredBy(s, r, reply)
    ensures AnsweredBy(s', r, reply)
  {
  }

  // ----- one detection -----

  /** The observers as the detector is given them. */
  function Targets(s: SimState): (r: seq<Target>)
    ensures |r| == 5
  {
    seq(5, i requires 0 <= i < 5 => Target(ObserverVip(s, ObserverPort(s, i)).value, ObserverPort(s, i)))
  }

  function Ask(client: Addr, t: Target, change: nat): (r: Request)
    ensures r.client == client
  {
    Request(client, t.port, change)
  }

  function AskAll(client: Addr, targets: seq<Target>): (r: seq<Request>)
    ensures |r| == |targets|
  {
    seq(|targets|, i requires 0 <= i < |targets| => Ask(client, targets[i], 0))
  }

  function TagsOf(probes: seq<(Group, Target)>): (r: seq<Group>)
    ensures |r| == |probes|
  {
    seq(|probes|, i requires 0 <= i < |probes| => probes[i].0)
  }

  function TargetsOf(probes: seq<(Group, Target)>): (r: seq<Target>)
    ensures |r| == |probes|
  {
    seq(|probes|, i requires 0 <= i < |probes| => probes[i].1)
  }

  function MappedOfReply(r: Option<Reply>): Option<Addr> {
    match r
    case None => None
    case Some(reply) => Some(Addr(LOOPBACK, reply.mapped))
  }

  function MappedPorts(replies: seq<Option<Reply>>): seq<int>
    decreases |replies|
  {
    if replies == [] then []
    else (if replies[0].Some? then [replies[0].value.mapped] else []) + MappedPorts(replies[1..])
  }

  /** The first batch: the main socket's probes, and the second socket's one. */
  function FirstBatch(t: seq<Target>, c: Addr, second: Addr): seq<Request>
    requires t != []
  {
    AskAll(c, TargetsOf(MainProbes(t))) + [Ask(second, t[0], 0)]
  }

  /** What is observed when the probes with these tags and the second socket's are answered so. */
  function ObservationsOf(tags: seq<Group>, replies: seq<Option<Reply>>): seq<Observation>
    requires |replies| == |tags| + 1
  {
    Observations(tags, seq(|tags|, i requires 0 <= i < |tags| => MappedOfReply(replies[i])), MappedOfReply(replies[|tags|]))
  }

  /** The extra probes: none, unless the NAT looks symmetric. */
  function MoreBatch(t: seq<Target>, c: Addr, obs: seq<Observation>): seq<Request>
    requires t != []
  {
    if !Symmetric(ClassifyMapping(obs).kind) then []
    else
      var extras := Extras(t, 1);
      AskAll(c, if |extras| <= SEQUENCE_LENGTH then extras else extras[..SEQUENCE_LENGTH])
  }

  /** The four batches of one detection. */
  datatype Session = Session(first: Exchange, more: Exchange, byPort: Exchange, byIp: Exchange)

  ghost predicate Follows(e: Exchange, s: SimState, asks: seq<Request>, sockets: set<Addr>) {
    Exchanged(e, asks, sockets) && e.path[0] == s
  }

  /** From `s`, sockets `c` and `second` of the detector run the whole sequence and report `profile`. */
  ghost predicate Detects(s: SimState, c: Addr, second: Addr, x: Session, profile: Profile) {
    var t, sockets := Targets(s), {c, second};
    var tags := TagsOf(MainProbes(t));
    && c != second
    && Follows(x.first, s, FirstBatch(t, c, second), sockets)
    && var obs := ObservationsOf(tags, x.first.replies);
    && Follows(x.more, Final(x.first), MoreBatch(t, c, obs), sockets)
    && Follows(x.byPort, Final(x.more), [Ask(c, t[0], 2)], sockets)
    && Follows(x.byIp, Final(x.byPort), [Ask(c, t[0], 1)], sockets)
    && profile == Conclude(t, obs, MappedPorts(x.more.replies), x.byPort.replies[0], x.byIp.replies[0])
  }

  lemma TargetsAre(s: SimState)
    ensures Targets(s) == [Target(s.vipSelf, s.portBase + 1), Target(s.vipSelf, s.portBase + 2), Target(VIP_C, s.portBase + 3),
                           Target(s.vipSelf, s.portBase + 4), Target(VIP_C, s.portBase + 5)]
  {
  }

  /** Which target plays which part. */
  lemma TargetRoles(s: SimState)
    requires s.vipSelf != VIP_C
    ensures var t := Targets(s);
      && SecondPort(t, 1) == Some(1) && SecondAddress(t, 1) == Some(2) && Extras(t, 1) == [t[3], t[4]]
      && MainProbes(t) == [(SameTarget, t[0]), (SameTarget, t[0]), (DiffPort, t[1]), (DiffIp, t[2])]
  {
    TargetsAre(s);
    var t := Targets(s);
    hide Targets;
    assert SecondAddress(t, 2) == Some(2);
    assert Extras(t, 5) == [];
    assert Extras(t, 4) == [t[4]];
    assert Extras(t, 3) == [t[3], t[4]];
    assert Extras(t, 2) == [t[3], t[4]];
  }

  const TAGS := [SameTarget, SameTarget, DiffPort, DiffIp]

  /** The two batches in full. */
  lemma Batches(s: SimState, c: Addr, second: Addr)
    requires s.vipSelf != VIP_C
    ensures var t := Targets(s);
      && TagsOf(MainProbes(t)) == TAGS
      && FirstBatch(t, c, second) == [Ask(c, t[0], 0), Ask(c, t[0], 0), Ask(c, t[1], 0), Ask(c, t[2], 0), Ask(second, t[0], 0)]
      && forall obs :: MoreBatch(t, c, obs) ==
           if Symmetric(ClassifyMapping(obs).kind) then [Ask(c, t[3], 0), Ask(c, t[4], 0)] else []
  {
    TargetRoles(s);
    hide Targets, SecondPort, SecondAddress, Extras, MainProbes, ClassifyMapping;
  }
}
