/** What the replay's findings mean in terms of the rows of the trace and their order. */
module EvidenceFindings {
  import opened NatModel
  import opened Evidence

  /** The ledger after the first `n` rows. */
  ghost function After(t: seq<Row>, side: Side, wanted: nat, n: nat): Ledger
    requires n <= |t|
  {
    ReadAll(EMPTY_LEDGER, side, t[..n], wanted)
  }

  lemma AfterNext(t: seq<Row>, side: Side, wanted: nat, n: nat)
    requires n < |t|
    ensures After(t, side, wanted, n + 1) == Read(After(t, side, wanted, n), side, t[n], wanted)
  {
    assert t[..n + 1] == t[..n] + [t[n]];
    ReadAllSplits(EMPTY_LEDGER, side, t[..n], [t[n]], wanted);
    var l := After(t, side, wanted, n);
    hide Read;
    assert [t[n]][1..] == [];
    assert ReadAll(Read(l, side, t[n], wanted), side, [], wanted) == Read(l, side, t[n], wanted);
  }

  lemma AfterNone(t: seq<Row>, side: Side, wanted: nat)
    ensures After(t, side, wanted, 0) == EMPTY_LEDGER
  {
  }

  // ----- rows -----

  /** The rows that are only counted. */
  datatype Kind = Capture | QueueFull | Nowhere | NoiseAt(stage: Stage)

  predicate Is(row: Row, side: Side, kind: Kind) {
    match kind
    case Capture => row.EgressCaptured? && row.side == side
    case QueueFull => row.QueueRejected? && row.side == side
    case Nowhere => row.Unmapped? && row.side == side
    case NoiseAt(stage) => row.MappingConsumed? && row.side == side && row.stage == stage
  }

  predicate Measured(row: Row, side: Side, c: Endpoint) {
    row.StunObserved? && row.side == side && row.client == c
  }

  /** The client's first peer mapping. */
  predicate Opened(row: Row, side: Side, c: Endpoint) {
    row.PeerStarted? && row.side == side && row.client == c && row.prior == 0
  }

  predicate InitialNoise(row: Row, side: Side, c: Endpoint) {
    row.MappingConsumed? && row.side == side && row.stage == AfterMeasurement && row.client == c
  }

  predicate BoundTo(row: Row, side: Side, e: Endpoint, d: Endpoint) {
    row.MappingBound? && row.side == side && row.endpoint == e && row.key.destination == d
  }

  /** The places before `n` with rows of a kind. */
  ghost function Places(t: seq<Row>, n: nat, side: Side, kind: Kind): set<int>
    requires n <= |t|
  {
    set i | 0 <= i < n && Is(t[i], side, kind)
  }

  lemma PlacesGrow(t: seq<Row>, n: nat, side: Side, kind: Kind)
    requires n < |t|
    ensures |Places(t, n + 1, side, kind)| == |Places(t, n, side, kind)| + if Is(t[n], side, kind) then 1 else 0
  {
    hide Is;
    if Is(t[n], side, kind) {
      assert Places(t, n + 1, side, kind) == Places(t, n, side, kind) + {n};
    } else {
      assert Places(t, n + 1, side, kind) == Places(t, n, side, kind);
    }
  }

  /** The payload bytes of the captures before `n`. */
  ghost function CapturedBytes(t: seq<Row>, side: Side, n: nat): nat
    requires n <= |t|
  {
    if n == 0 then 0 else CapturedBytes(t, side, n - 1) + if Is(t[n - 1], side, Capture) then t[n - 1].bytes else 0
  }

  /** The counters are the numbers of rows of each kind. */
  lemma {:induction false} CountersAreCounts(t: seq<Row>, side: Side, wanted: nat, n: nat)
    requires n <= |t|
    ensures var l := After(t, side, wanted, n);
      && l.last == n
      && l.captures == |Places(t, n, side, Capture)| && l.captureBytes == CapturedBytes(t, side, n)
      && l.rejected == |Places(t, n, side, QueueFull)| && l.unbound == |Places(t, n, side, Nowhere)|
      && l.noiseInitial == |Places(t, n, side, NoiseAt(AfterMeasurement))|
      && l.noiseSweep == |Places(t, n, side, NoiseAt(DuringSweep))|
  {
    if n > 0 {
      CountersAreCounts(t, side, wanted, n - 1);
      AfterNext(t, side, wanted, n - 1);
      PlacesGrow(t, n - 1, side, Capture);
      PlacesGrow(t, n - 1, side, QueueFull);
      PlacesGrow(t, n - 1, side, Nowhere);
      PlacesGrow(t, n - 1, side, NoiseAt(AfterMeasurement));
      PlacesGrow(t, n - 1, side, NoiseAt(DuringSweep));
      RowCounts(After(t, side, wanted, n - 1), side, t[n - 1], wanted);
      RowRejects(After(t, side, wanted, n - 1), side, t[n - 1], wanted);
      RowConsumes(After(t, side, wanted, n - 1), side, t[n - 1], wanted);
      hide Read, After, Places, Is;
    } else {
      AfterNone(t, side, wanted);
    }
  }

  lemma RowCounts(l: Ledger, side: Side, row: Row, wanted: nat)
    ensures var l' := Read(l, side, row, wanted);
      && l'.last == l.last + 1
      && l'.captures == l.captures + (if Is(row, side, Capture) then 1 else 0)
      && l'.captureBytes == l.captureBytes + (if Is(row, side, Capture) then row.bytes else 0)
  {
    match row
    case EgressCaptured(_, _, _, _) =>
    case MappingConsumed(_, _, _, _, _, _) => hide Count, When;
    case PeerStarted(_, _, _, _, _) => hide Count, When;
    case _ => hide Count, When;
  }

  lemma RowRejects(l: Ledger, side: Side, row: Row, wanted: nat)
    ensures var l' := Read(l, side, row, wanted);
      && l'.rejected == l.rejected + (if Is(row, side, QueueFull) then 1 else 0)
      && l'.unbound == l.unbound + (if Is(row, side, Nowhere) then 1 else 0)
  {
    hide Count, When;
  }

  lemma RowConsumes(l: Ledger, side: Side, row: Row, wanted: nat)
    ensures var l' := Read(l, side, row, wanted);
      && l'.noiseInitial == l.noiseInitial + (if Is(row, side, NoiseAt(AfterMeasurement)) then 1 else 0)
      && l'.noiseSweep == l.noiseSweep + (if Is(row, side, NoiseAt(DuringSweep)) then 1 else 0)
  {
    hide Count, When;
  }

  // ----- what the ledger remembers of each client and endpoint -----

  ghost predicate MeasuredBefore(t: seq<Row>, side: Side, c: Endpoint, n: int) {
    exists i :: 0 <= i < n && i < |t| && Measured(t[i], side, c)
  }

  ghost predicate OpenedBefore(t: seq<Row>, side: Side, c: Endpoint, n: int) {
    exists i :: 0 <= i < n && i < |t| && Opened(t[i], side, c)
  }

  ghost predicate NoiseBefore(t: seq<Row>, side: Side, c: Endpoint, n: int) {
    exists i :: 0 <= i < n && i < |t| && InitialNoise(t[i], side, c)
  }

  /** Row `i` is the client's latest measurement before `n`. */
  ghost predicate LatestMeasure(t: seq<Row>, side: Side, c: Endpoint, n: int, i: int) {
    0 <= i < n <= |t| && Measured(t[i], side, c) && forall j | i < j < n :: !Measured(t[j], side, c)
  }

  ghost predicate FirstNoise(t: seq<Row>, side: Side, c: Endpoint, n: int, i: int) {
    0 <= i < n <= |t| && InitialNoise(t[i], side, c) && forall j | 0 <= j < i :: !InitialNoise(t[j], side, c)
  }

  /** The places before `n` of the client's initial noise. */
  ghost function NoiseOf(t: seq<Row>, n: nat, side: Side, c: Endpoint): set<int>
    requires n <= |t|
  {
    set i | 0 <= i < n && InitialNoise(t[i], side, c)
  }

  ghost predicate RemembersMeasures(t: seq<Row>, side: Side, n: nat, l: Ledger)
    requires n <= |t|
  {
    && (forall c :: c in l.observed <==> MeasuredBefore(t, side, c, n))
    && (forall c | c in l.observed :: LatestMeasure(t, side, c, n, l.observed[c] as int - 1))
  }

  ghost predicate RemembersPeers(t: seq<Row>, side: Side, n: nat, l: Ledger)
    requires n <= |t|
  {
    forall c :: c in l.firstPeer <==> OpenedBefore(t, side, c, n)
  }

  ghost predicate RemembersAmounts(t: seq<Row>, side: Side, n: nat, l: Ledger)
    requires n <= |t|
  {
    forall c :: Count(l.initialNoise, c) == |NoiseOf(t, n, side, c)|
  }

  ghost predicate RemembersFirsts(t: seq<Row>, side: Side, n: nat, l: Ledger)
    requires n <= |t|
  {
    && (forall c :: c in l.firstNoise <==> NoiseBefore(t, side, c, n))
    && (forall c | c in l.firstNoise :: FirstNoise(t, side, c, n, l.firstNoise[c] as int - 1))
  }

  ghost predicate RemembersNoise(t: seq<Row>, side: Side, n: nat, l: Ledger)
    requires n <= |t|
  {
    RemembersAmounts(t, side, n, l) && RemembersFirsts(t, side, n, l)
  }

  lemma NoiseGrows(t: seq<Row>, n: nat, side: Side, c: Endpoint)
    requires n < |t|
    ensures |NoiseOf(t, n + 1, side, c)| == |NoiseOf(t, n, side, c)| + if InitialNoise(t[n], side, c) then 1 else 0
  {
    hide InitialNoise;
    if InitialNoise(t[n], side, c) {
      assert NoiseOf(t, n + 1, side, c) == NoiseOf(t, n, side, c) + {n};
    } else {
      assert NoiseOf(t, n + 1, side, c) == NoiseOf(t, n, side, c);
    }
  }

  lemma RowMeasures(l: Ledger, side: Side, row: Row, wanted: nat)
    ensures var l' := Read(l, side, row, wanted);
      && l'.observed == (if row.StunObserved? && row.side == side then l.observed[row.client := l.last + 1] else l.observed)
      && l'.firstPeer == (if row.PeerStarted? && row.side == side && row.prior == 0 then l.firstPeer + {row.client} else l.firstPeer)
  {
    hide Count, When;
  }

  lemma RowNoise(l: Ledger, side: Side, row: Row, wanted: nat)
    ensures var l', mine := Read(l, side, row, wanted), row.MappingConsumed? && row.side == side && row.stage.AfterMeasurement?;
      && (mine ==> l'.initialNoise == l.initialNoise[row.client := Count(l.initialNoise, row.client) + 1])
      && (mine ==> l'.firstNoise == if row.client in l.firstNoise then l.firstNoise else l.firstNoise[row.client := l.last + 1])
      && (!mine ==> l'.initialNoise == l.initialNoise && l'.firstNoise == l.firstNoise)
  {
    hide Count, When;
  }

  lemma {:induction false} MeasuresAreRemembered(t: seq<Row>, side: Side, wanted: nat, n: nat)
    requires n <= |t|
    ensures RemembersMeasures(t, side, n, After(t, side, wanted, n)) && RemembersPeers(t, side, n, After(t, side, wanted, n))
  {
    if n > 0 {
      MeasuresAreRemembered(t, side, wanted, n - 1);
      AfterNext(t, side, wanted, n - 1);
      CountersAreCounts(t, side, wanted, n - 1);
      var l := After(t, side, wanted, n - 1);
      RowMeasures(l, side, t[n - 1], wanted);
      hide Read, After;
      MeasureRemembered(t, side, n - 1, l, Read(l, side, t[n - 1], wanted));
      PeerRemembered(t, side, n - 1, l, Read(l, side, t[n - 1], wanted));
    } else {
      AfterNone(t, side, wanted);
    }
  }

  lemma MeasureRemembered(t: seq<Row>, side: Side, n: nat, l: Ledger, l': Ledger)
    requires n < |t| && RemembersMeasures(t, side, n, l) && l.last == n
    requires l'.observed == if t[n].StunObserved? && t[n].side == side then l.observed[t[n].client := n + 1] else l.observed
    ensures RemembersMeasures(t, side, n + 1, l')
  {
    forall c ensures MeasuredBefore(t, side, c, n + 1) <==> MeasuredBefore(t, side, c, n) || Measured(t[n], side, c) {
    }
  }

  lemma PeerRemembered(t: seq<Row>, side: Side, n: nat, l: Ledger, l': Ledger)
    requires n < |t| && RemembersPeers(t, side, n, l)
    requires l'.firstPeer == if t[n].PeerStarted? && t[n].side == side && t[n].prior == 0 then l.firstPeer + {t[n].client} else l.firstPeer
    ensures RemembersPeers(t, side, n + 1, l')
  {
    forall c ensures OpenedBefore(t, side, c, n + 1) <==> OpenedBefore(t, side, c, n) || Opened(t[n], side, c) {
    }
  }

  lemma {:induction false} NoiseIsRemembered(t: seq<Row>, side: Side, wanted: nat, n: nat)
    requires n <= |t|
    ensures RemembersNoise(t, side, n, After(t, side, wanted, n))
  {
    if n > 0 {
      NoiseIsRemembered(t, side, wanted, n - 1);
      AfterNext(t, side, wanted, n - 1);
      CountersAreCounts(t, side, wanted, n - 1);
      var l := After(t, side, wanted, n - 1);
      RowNoise(l, side, t[n - 1], wanted);
      hide Read, After, RemembersNoise, NoiseOf, CapturedBytes, Places, Count;
      NoiseRemembered(t, side, n - 1, l, Read(l, side, t[n - 1], wanted));
    } else {
      AfterNone(t, side, wanted);
    }
  }

  lemma NoiseRemembered(t: seq<Row>, side: Side, n: nat, l: Ledger, l': Ledger)
    requires n < |t| && RemembersNoise(t, side, n, l) && l.last == n
    requires t[n].MappingConsumed? && t[n].side == side && t[n].stage.AfterMeasurement? ==>
      && l'.initialNoise == l.initialNoise[t[n].client := Count(l.initialNoise, t[n].client) + 1]
      && l'.firstNoise == if t[n].client in l.firstNoise then l.firstNoise else l.firstNoise[t[n].client := n + 1]
    requires !(t[n].MappingConsumed? && t[n].side == side && t[n].stage.AfterMeasurement?) ==>
      l'.initialNoise == l.initialNoise && l'.firstNoise == l.firstNoise
    ensures RemembersNoise(t, side, n + 1, l')
  {
    hide RemembersAmounts, RemembersFirsts;
    NoiseCountGrows(t, side, n, l, l');
    FirstNoiseStays(t, side, n, l, l');
  }

  lemma NoiseCountGrows(t: seq<Row>, side: Side, n: nat, l: Ledger, l': Ledger)
    requires n < |t| && RemembersAmounts(t, side, n, l)
    requires l'.initialNoise ==
      if t[n].MappingConsumed? && t[n].side == side && t[n].stage.AfterMeasurement?
      then l.initialNoise[t[n].client := Count(l.initialNoise, t[n].client) + 1] else l.initialNoise
    ensures RemembersAmounts(t, side, n + 1, l')
  {
    forall c ensures |NoiseOf(t, n + 1, side, c)| == |NoiseOf(t, n, side, c)| + if InitialNoise(t[n], side, c) then 1 else 0 {
      NoiseGrows(t, n, side, c);
    }
    hide NoiseOf;
  }

  lemma FirstNoiseStays(t: seq<Row>, side: Side, n: nat, l: Ledger, l': Ledger)
    requires n < |t| && RemembersFirsts(t, side, n, l) && l.last == n
    requires l'.firstNoise ==
      if t[n].MappingConsumed? && t[n].side == side && t[n].stage.AfterMeasurement? && t[n].client !in l.firstNoise
      then l.firstNoise[t[n].client := n + 1] else l.firstNoise
    ensures RemembersFirsts(t, side, n + 1, l')
  {
    forall c ensures NoiseBefore(t, side, c, n + 1) <==> NoiseBefore(t, side, c, n) || InitialNoise(t[n], side, c) {
    }
  }

  // ----- the findings -----

  /** Initial noise before the client was measured, or after it opened a mapping. */
  ghost predicate OutsideAt(t: seq<Row>, side: Side, i: int) {
    0 <= i < |t| && t[i].MappingConsumed? && t[i].side == side && t[i].stage == AfterMeasurement
    && (!MeasuredBefore(t, side, t[i].client, i) || OpenedBefore(t, side, t[i].client, i))
  }

  /** Sweep noise of a client that had opened nothing. */
  ghost predicate IdleSweepAt(t: seq<Row>, side: Side, i: int) {
    0 <= i < |t| && t[i].MappingConsumed? && t[i].side == side && t[i].stage == DuringSweep
    && (t[i].prior == 0 || !OpenedBefore(t, side, t[i].client, i))
  }

  /** The first peer mapping of a measured client. */
  ghost predicate MeasuredFirstAt(t: seq<Row>, side: Side, i: int) {
    0 <= i < |t| && t[i].PeerStarted? && t[i].side == side && t[i].prior == 0 && MeasuredBefore(t, side, t[i].client, i)
  }

  /** It came after more or less initial noise than asked for. */
  ghost predicate MiscountedAt(t: seq<Row>, side: Side, wanted: nat, i: int) {
    MeasuredFirstAt(t, side, i) && |NoiseOf(t, i, side, t[i].client)| != wanted
  }

  /** Noise was asked for, and there was none before it, or some before the client's latest measurement. */
  ghost predicate EarlyAt(t: seq<Row>, side: Side, wanted: nat, i: int) {
    && MeasuredFirstAt(t, side, i) && wanted > 0
    && (NoiseBefore(t, side, t[i].client, i) ==>
          exists j :: LatestMeasure(t, side, t[i].client, i, j) && NoiseBefore(t, side, t[i].client, j))
  }

  /** The endpoint had been bound towards another destination before. */
  ghost predicate ReboundAt(t: seq<Row>, side: Side, i: int) {
    0 <= i < |t| && t[i].MappingBound? && t[i].side == side
    && exists j, d :: 0 <= j < i && BoundTo(t[j], side, t[i].endpoint, d) && d != t[i].key.destination
  }

  ghost predicate Happens(t: seq<Row>, side: Side, wanted: nat, finding: Finding, i: int) {
    match finding
    case OutsideWindow => OutsideAt(t, side, i)
    case NotDuringSweep => IdleSweepAt(t, side, i)
    case CountMismatch => MiscountedAt(t, side, wanted, i)
    case PrecedesMeasurement => EarlyAt(t, side, wanted, i)
    case Reassigned => ReboundAt(t, side, i)
  }

  lemma RowFinds(l: Ledger, side: Side, row: Row, wanted: nat)
    ensures var l', c := Read(l, side, row, wanted), l.observed;
      forall e :: e in l'.errors <==> e in l.errors || (match e
        case OutsideWindow => row.MappingConsumed? && row.side == side && row.stage == AfterMeasurement
                              && (row.client !in l.observed || row.client in l.firstPeer)
        case NotDuringSweep => row.MappingConsumed? && row.side == side && row.stage == DuringSweep
                               && (row.client !in l.firstPeer || row.prior == 0)
        case CountMismatch => row.PeerStarted? && row.side == side && row.prior == 0 && row.client in l.observed
                              && Count(l.initialNoise, row.client) != wanted
        case PrecedesMeasurement => row.PeerStarted? && row.side == side && row.prior == 0 && row.client in l.observed
                                    && wanted > 0 && Count(l.firstNoise, row.client) <= l.observed[row.client]
        case Reassigned => row.MappingBound? && row.side == side && row.endpoint in l.table && l.table[row.endpoint] != row.key.destination)
  {
    hide Count;
  }

  /** The endpoint's latest destination before `n`. */
  ghost predicate LatestBound(t: seq<Row>, side: Side, e: Endpoint, n: int, i: int) {
    0 <= i < n <= |t| && t[i].MappingBound? && t[i].side == side && t[i].endpoint == e
    && forall j | i < j < n :: !(t[j].MappingBound? && t[j].side == side && t[j].endpoint == e)
  }

  ghost predicate RemembersBinds(t: seq<Row>, side: Side, n: nat, l: Ledger)
    requires n <= |t|
  {
    && (forall e, i | 0 <= i < n && t[i].MappingBound? && t[i].side == side && t[i].endpoint == e :: e in l.table)
    && (forall e | e in l.table :: exists i :: LatestBound(t, side, e, n, i) && t[i].key.destination == l.table[e])
  }

  lemma RowBinds(l: Ledger, side: Side, row: Row, wanted: nat)
    ensures Read(l, side, row, wanted).table ==
      if row.MappingBound? && row.side == side then l.table[row.endpoint := row.key.destination] else l.table
  {
    hide Count, When;
  }

  lemma {:induction false} BindsAreRemembered(t: seq<Row>, side: Side, wanted: nat, n: nat)
    requires n <= |t|
    ensures RemembersBinds(t, side, n, After(t, side, wanted, n))
  {
    if n > 0 {
      BindsAreRemembered(t, side, wanted, n - 1);
      AfterNext(t, side, wanted, n - 1);
      var l := After(t, side, wanted, n - 1);
      RowBinds(l, side, t[n - 1], wanted);
      hide Read, After;
      BindRemembered(t, side, n - 1, l, Read(l, side, t[n - 1], wanted));
    } else {
      AfterNone(t, side, wanted);
    }
  }

  lemma BindRemembered(t: seq<Row>, side: Side, n: nat, l: Ledger, l': Ledger)
    requires n < |t| && RemembersBinds(t, side, n, l)
    requires l'.table == if t[n].MappingBound? && t[n].side == side then l.table[t[n].endpoint := t[n].key.destination] else l.table
    ensures RemembersBinds(t, side, n + 1, l')
  {
    forall e | e in l'.table ensures exists i :: LatestBound(t, side, e, n + 1, i) && t[i].key.destination == l'.table[e] {
      if t[n].MappingBound? && t[n].side == side && t[n].endpoint == e {
        assert LatestBound(t, side, e, n + 1, n);
      } else {
        var i :| LatestBound(t, side, e, n, i) && t[i].key.destination == l.table[e];
        assert LatestBound(t, side, e, n + 1, i);
      }
    }
  }

  ghost predicate HappensBefore(t: seq<Row>, side: Side, wanted: nat, finding: Finding, n: int) {
    exists i :: 0 <= i < n && Happens(t, side, wanted, finding, i)
  }

  /** What the next row adds is what happens there. */
  lemma NextFinding(t: seq<Row>, side: Side, wanted: nat, n: nat, l: Ledger, finding: Finding)
    requires n < |t| && !finding.Reassigned?
    requires RemembersMeasures(t, side, n, l) && RemembersPeers(t, side, n, l) && RemembersNoise(t, side, n, l)
    ensures finding in Read(l, side, t[n], wanted).errors <==> finding in l.errors || Happens(t, side, wanted, finding, n)
  {
    RowFinds(l, side, t[n], wanted);
    hide Read, NoiseOf;
    if finding.PrecedesMeasurement? && t[n].PeerStarted? && t[n].side == side && t[n].client in l.observed {
      EarlyIs(t, side, n, l, t[n].client);
    }
  }

  /** The first noise came before the latest measurement exactly when there was some before it. */
  lemma EarlyIs(t: seq<Row>, side: Side, n: nat, l: Ledger, c: Endpoint)
    requires n < |t| && c in l.observed && RemembersMeasures(t, side, n, l) && RemembersNoise(t, side, n, l)
    ensures Count(l.firstNoise, c) <= l.observed[c] <==>
      (NoiseBefore(t, side, c, n) ==> exists j :: LatestMeasure(t, side, c, n, j) && NoiseBefore(t, side, c, j))
  {
    hide NoiseOf;
    var m := l.observed[c] as int - 1;
    assert LatestMeasure(t, side, c, n, m);
    forall j | LatestMeasure(t, side, c, n, j) ensures j == m { }
    if NoiseBefore(t, side, c, n) {
      var f := l.firstNoise[c] as int - 1;
      assert FirstNoise(t, side, c, n, f);
      assert t[f].MappingConsumed? && t[m].StunObserved?;
      if f < m {
        assert InitialNoise(t[f], side, c);
        assert NoiseBefore(t, side, c, m);
      }
    }
  }

  lemma NextRebind(t: seq<Row>, side: Side, wanted: nat, n: nat, l: Ledger)
    requires n < |t| && RemembersBinds(t, side, n, l)
    requires Reassigned in l.errors <==> HappensBefore(t, side, wanted, Reassigned, n)
    ensures Reassigned in Read(l, side, t[n], wanted).errors <==> HappensBefore(t, side, wanted, Reassigned, n + 1)
  {
    RowFinds(l, side, t[n], wanted);
    hide Read;
    if t[n].MappingBound? && t[n].side == side && t[n].endpoint in l.table {
      var e := t[n].endpoint;
      var k :| LatestBound(t, side, e, n, k) && t[k].key.destination == l.table[e];
      assert BoundTo(t[k], side, e, t[k].key.destination);
      if l.table[e] != t[n].key.destination {
        assert ReboundAt(t, side, n);
        assert Happens(t, side, wanted, Reassigned, n);
      } else if ReboundAt(t, side, n) {
        var j, d :| 0 <= j < n && BoundTo(t[j], side, e, d) && d != t[n].key.destination;
        assert ReboundAt(t, side, k);
        assert Happens(t, side, wanted, Reassigned, k);
      }
    }
  }

  /** Each finding is made exactly when it happens somewhere in the trace. */
  lemma {:induction false} FindingsHappen(t: seq<Row>, side: Side, wanted: nat, n: nat)
    requires n <= |t|
    ensures forall finding :: finding in After(t, side, wanted, n).errors <==> HappensBefore(t, side, wanted, finding, n)
  {
    if n > 0 {
      FindingsHappen(t, side, wanted, n - 1);
      AfterNext(t, side, wanted, n - 1);
      MeasuresAreRemembered(t, side, wanted, n - 1);
      NoiseIsRemembered(t, side, wanted, n - 1);
      BindsAreRemembered(t, side, wanted, n - 1);
      var l := After(t, side, wanted, n - 1);
      hide Read, After, Happens, RemembersMeasures, RemembersPeers, RemembersNoise, RemembersBinds;
      forall finding ensures finding in Read(l, side, t[n - 1], wanted).errors <==> HappensBefore(t, side, wanted, finding, n) {
        if finding.Reassigned? {
          NextRebind(t, side, wanted, n - 1, l);
        } else {
          NextFinding(t, side, wanted, n - 1, l, finding);
        }
      }
    } else {
      AfterNone(t, side, wanted);
    }
  }

  /** The endpoint table holds each endpoint's latest destination. */
  lemma TableIsLatest(t: seq<Row>, side: Side, wanted: nat, e: Endpoint, d: Endpoint)
    ensures var table := ReadAll(EMPTY_LEDGER, side, t, wanted).table;
      e in table && table[e] == d <==> exists i :: LatestBound(t, side, e, |t|, i) && t[i].key.destination == d
  {
    assert t[..|t|] == t;
    BindsAreRemembered(t, side, wanted, |t|);
    var l := After(t, side, wanted, |t|);
    hide Read, ReadAll;
    if i :| LatestBound(t, side, e, |t|, i) && t[i].key.destination == d {
      assert e in l.table;
      var k :| LatestBound(t, side, e, |t|, k) && t[k].key.destination == l.table[e];
      assert k == i;
    }
  }
}
