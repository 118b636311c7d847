/** The verdicts of the trace checker on every run, and its recount of the reciprocal pairs. */
module EvidenceRuns {
  import opened Arithmetic
  import opened NatModel
  import opened NatTable
  import opened NatWorld
  import opened WorldSafety
  import opened Evidence
  import opened EvidenceAgreement
  import opened StunCodec
  import opened Wrappers

  lemma StunEvidence(w: World, side: Side, client: Endpoint, observer: Endpoint)
    requires WorldInv(w) && EvidenceOk(w) && Enabled(w, Stun(side, client, observer))
    ensures EvidenceOk(Apply(w, side, HandleStunRequest(Of(w, side), client, observer)))
  {
    var n := Of(w, side);
    var o := HandleStunRequest(n, client, observer);
    HandleStunRequestKeeps(n, client, observer);
    HandleStunRequestIngress(n, client, observer);
    HandleStunRequestRows(n, client, observer);
    hide WorldInv, NatInv, HandleStunRequest, OutAgrees, OwnRows;
    if !o.state.exhausted {
      hide TableAgrees;
      HandleStunRequestAgrees(n, client, observer, LedgerOf(n, w.trace), FirstPeers(w.trace, side));
    }
    hide NoiseAgrees, SideOk, Continues, NoNewReports;
    IngressEvidence(w, side, o);
  }

  lemma EgressEvidence(w: World, side: Side, client: Endpoint, destination: Endpoint, data: Bytes)
    requires WorldInv(w) && EvidenceOk(w) && Enabled(w, Egress(side, client, destination, data))
    ensures EvidenceOk(Apply(w, side, CaptureEgress(Of(w, side), client, destination, data)))
  {
    var n := Of(w, side);
    var o := CaptureEgress(n, client, destination, data);
    CaptureEgressKeeps(n, client, destination, data);
    CaptureEgressIngress(n, client, destination, data);
    CaptureEgressRows(n, client, destination, data);
    hide WorldInv, NatInv, CaptureEgress, OutAgrees, OwnRows;
    if !o.state.exhausted {
      hide TableAgrees;
      CaptureEgressAgrees(n, client, destination, data, LedgerOf(n, w.trace), FirstPeers(w.trace, side));
    }
    hide NoiseAgrees, SideOk, Continues, NoNewReports;
    IngressEvidence(w, side, o);
  }

  /** A bind or a rebind writes nothing and counts nothing. */
  lemma BindEvidence(w: World, side: Side, n': NatState)
    requires WorldInv(w) && EvidenceOk(w)
    requires Continues(Of(w, side), n') && NoNewReports(Of(w, side), n') && SameCounters(Of(w, side), n')
    ensures EvidenceOk(With(w, side, n'))
  {
    InvBound(w.a);
    InvBound(w.b);
    ContinuesReflexive(Of(w, side.Other()));
    hide WorldInv, SideOk, Indexed, Bound, Continues, NatInv;
    assert w.trace + [] == w.trace;
    QuietMove(Of(w, side), n', w.trace, []);
    QuietMove(Of(w, side.Other()), Of(w, side.Other()), w.trace, []);
  }

  lemma BindOkEvidence(w: World, side: Side, key: Key)
    requires WorldInv(w) && EvidenceOk(w) && Enabled(w, BindOk(side, key))
    ensures EvidenceOk(With(w, side, BindMapping(Of(w, side), key)))
  {
    BindKeeps(Of(w, side), key);
    hide WorldInv, NatInv, EvidenceOk, Continues;
    BindEvidence(w, side, BindMapping(Of(w, side), key));
  }

  lemma ReassignIsQuiet(n: NatState, key: Key)
    requires key in n.mappings
    ensures var o := ReassignMappingPort(n, key); o.rows == [] && SameCounters(n, o.state) && NoNewReports(n, o.state)
  {
    hide Allocate1;
  }

  lemma BindBusyEvidence(w: World, side: Side, key: Key)
    requires WorldInv(w) && EvidenceOk(w) && Enabled(w, BindBusy(side, key))
    ensures EvidenceOk(Apply(w, side, ReassignMappingPort(Of(w, side), key)))
  {
    ReassignKeeps(Of(w, side), key);
    hide WorldInv, NatInv, EvidenceOk, Continues, ReassignMappingPort;
    ReassignIsQuiet(Of(w, side), key);
    hide NoNewReports, SameCounters;
    var o := ReassignMappingPort(Of(w, side), key);
    BindEvidence(w, side, o.state);
    assert Apply(w, side, o) == With(w, side, o.state) by { assert w.trace + [] == w.trace; }
  }

  lemma ReportEvidence(w: World, side: Side, key: Key)
    requires WorldInv(w) && EvidenceOk(w) && Enabled(w, Report(side, key))
    ensures EvidenceOk(ReportBound(w, side, key))
  {
    if !Of(w, side).mappings[key].reported {
      var rows := ReportRows(w, side, key);
      ReportRecordsPair(w, side, key);
      SideIsBound(w, side);
      SideIsBound(w, side.Other());
      hide ReportBound, WorldInv, EvidenceOk, Indexed, Bound, Continues, PairsOk;
      ReportedEvidence(w, side, key, rows, ReportBound(w, side, key));
    }
  }

  lemma SideIsBound(w: World, side: Side)
    requires WorldInv(w)
    ensures Indexed(Of(w, side)) && Bound(Of(w, side)) && Continues(Of(w, side), Of(w, side))
  {
    InvBound(Of(w, side));
    ContinuesReflexive(Of(w, side));
    hide Indexed, Bound, Continues;
  }

  lemma ReportedEvidence(w: World, side: Side, key: Key, rows: seq<Row>, w': World)
    requires key in Of(w, side).mappings && Of(w, side).mappings[key].bound && !Of(w, side).mappings[key].reported
    requires w' == Reported(w, side, key).(pairs := w'.pairs, trace := w.trace + rows)
    requires rows != [] && rows[0] == MappingBound(side, key, MappingEndpoint(Of(w, side), key))
    requires forall i | 1 <= i < |rows| :: rows[i].ReciprocalPair?
    requires Indexed(Of(w, side)) && Bound(Of(w, side)) && Bound(Of(w, side.Other()))
    requires Continues(Of(w, side.Other()), Of(w, side.Other()))
    requires EvidenceOk(w)
    ensures EvidenceOk(w')
  {
    hide SideOk, Continues, Indexed, Bound;
    ReportedSideOk(Of(w, side), key, w.trace, rows);
    assert forall row | row in rows :: NoNoise(row, side.Other()) && NoBind(row, side.Other());
    QuietMove(Of(w, side.Other()), Of(w, side.Other()), w.trace, rows);
  }

  /** A first report writes its own row and at most the row of a pair. */
  lemma ReportRows(w: World, side: Side, key: Key) returns (rows: seq<Row>)
    requires key in Of(w, side).mappings && !Of(w, side).mappings[key].reported
    ensures ReportBound(w, side, key).trace == w.trace + rows
    ensures rows != [] && rows[0] == MappingBound(side, key, MappingEndpoint(Of(w, side), key))
    ensures forall i | 1 <= i < |rows| :: rows[i].ReciprocalPair?
  {
    rows := ReportBound(w, side, key).trace[|w.trace|..];
  }

  lemma ReportedSideOk(n: NatState, key: Key, trace: seq<Row>, rows: seq<Row>)
    requires SideOk(n, trace) && Indexed(n) && Bound(n)
    requires key in n.mappings && n.mappings[key].bound && !n.mappings[key].reported
    requires rows != [] && rows[0] == MappingBound(n.cfg.side, key, MappingEndpoint(n, key))
    requires forall i | 1 <= i < |rows| :: rows[i].ReciprocalPair?
    ensures SideOk(n.(mappings := n.mappings[key := n.mappings[key].(reported := true)]), trace + rows)
  {
    var n' := n.(mappings := n.mappings[key := n.mappings[key].(reported := true)]);
    var l, side, wanted := LedgerOf(n, trace), n.cfg.side, n.cfg.consumeBeforePunch;
    ReadAllSplits(EMPTY_LEDGER, side, trace, rows, wanted);
    FirstPeersSplits(trace, rows, side);
    NoFirstPeers(rows, side);
    NoiseUntouched(l, side, rows, wanted);
    var l1 := Read(l, side, rows[0], wanted);
    assert ReadAll(l, side, rows, wanted) == ReadAll(l1, side, rows[1..], wanted);
    BindsUntouched(l1, side, rows[1..], wanted);
    ReportAgrees(n, key, n', l);
    hide Indexed, Bound, ReadAll, FirstPeers, Read, SameNoise, NoiseAgrees;
    assert TableAgrees(n', LedgerOf(n', trace + rows));
    hide TableAgrees, SameBinds;
    if !n'.exhausted {
      NoiseFrame(n, l, n', LedgerOf(n', trace + rows), FirstPeers(trace, side));
    }
  }

  lemma StepEvidence(w: World, e: Event)
    requires WorldInv(w) && EvidenceOk(w) && Enabled(w, e)
    ensures PeersKnown(w) && FlightsKnown(w) && EvidenceOk(Step(w, e))
  {
    WorldInvKnows(w);
    match e
    case Stun(side, client, observer) => StunEvidence(w, side, client, observer);
    case Egress(side, client, destination, data) => EgressEvidence(w, side, client, destination, data);
    case BindOk(side, key) => BindOkEvidence(w, side, key);
    case BindBusy(side, key) => BindBusyEvidence(w, side, key);
    case Report(side, key) => ReportEvidence(w, side, key);
    case _ =>
      StepContinues(w, e);
      TrafficIsCalm(w, e);
      hide WorldInv, EvidenceOk, Calm, Step, Continues;
      CalmEvidence(w, Step(w, e));
  }

  lemma TrafficIsCalm(w: World, e: Event)
    requires WorldInv(w) && Enabled(w, e) && (e.Flush? || e.Arrive? || e.Land?)
    ensures PeersKnown(w) && FlightsKnown(w) && Calm(w, Step(w, e))
  {
    WorldInvKnows(w);
    match e
    case Flush(side, key, g) =>
      var w1 := With(w, side, PopPending(Of(w, side), key));
      assert Calm(w, w1);
      PopPendingKeeps(w, side, key);
      hide WorldInv, Calm;
      RouteTranslatedIsCalm(w1, side, key, Of(w, side).mappings[key].pending[0], g);
      CalmTransitive(w, w1, Step(w, e));
    case Arrive(side, port, source, data, g) => HandlePublicDatagramIsCalm(w, side, port, data, source, None, g);
    case Land(index) =>
      var w1 := w.(flights := w.flights[..index] + w.flights[index + 1..]);
      EmitIsCalm(w, w1, []);
      hide WorldInv, Calm;
      DeliverIsCalm(w1, w.flights[index]);
      CalmTransitive(w, w1, Step(w, e));
  }

  lemma StartEvidence(w: World)
    requires Start(w)
    ensures EvidenceOk(w)
  {
    assert 0 * w.a.cfg.consumeBeforePunch == 0 && 0 * w.b.cfg.consumeBeforePunch == 0;
  }

  lemma {:induction false} RunEvidence(w: World, es: seq<Event>, w': World)
    requires WorldInv(w) && EvidenceOk(w) && Runs(w, es, w')
    ensures WorldInv(w') && EvidenceOk(w')
    decreases |es|
  {
    if es != [] {
      StepKeeps(w, es[0]);
      StepEvidence(w, es[0]);
      hide WorldInv, EvidenceOk, Step;
      RunEvidence(Step(w, es[0]), es[1..], w');
    }
  }

  /** What the replay of a trace says about one NAT. */
  ghost predicate Verdicts(n: NatState, l: Ledger, first: nat) {
    && Reassigned !in l.errors
    && (!n.exhausted ==>
          && OutsideWindow !in l.errors && NotDuringSweep !in l.errors
          && l.noiseSweep <= n.cfg.sweepLimit
          && (CountMismatch in l.errors <==> first * n.cfg.consumeBeforePunch > INITIAL_NOISE_BUDGET)
          && (PrecedesMeasurement in l.errors <==>
                n.cfg.consumeBeforePunch > 0 && first > 0 && (first - 1) * n.cfg.consumeBeforePunch >= INITIAL_NOISE_BUDGET))
  }

  lemma SideVerdicts(n: NatState, trace: seq<Row>)
    requires SideOk(n, trace)
    ensures Verdicts(n, LedgerOf(n, trace), FirstPeers(trace, n.cfg.side))
  {
    hide ReadAll, FirstPeers, ClientsAgree;
  }

  /**
   The checker on every run. It never sees an endpoint change hands. As long as no allocation has failed it
   never sees noise outside its window or beyond the sweep limit, and it complains about the amount of initial
   noise exactly when the clients that drew on the initial budget asked for more than the budget holds.
   */
  lemma CheckerVerdicts(w: World, es: seq<Event>, w': World, side: Side)
    requires Start(w) && Runs(w, es, w')
    ensures Verdicts(Of(w', side), ReadAll(EMPTY_LEDGER, side, w'.trace, Of(w', side).cfg.consumeBeforePunch), FirstPeers(w'.trace, side))
  {
    StartInv(w);
    StartEvidence(w);
    RunEvidence(w, es, w');
    hide WorldInv, SideOk, Verdicts, Start, Runs;
    SideVerdicts(Of(w', side), w'.trace);
  }

  lemma WithinBudget(first: nat, consume: nat)
    requires first <= 64 && consume <= 64
    ensures first * consume <= INITIAL_NOISE_BUDGET && (first > 0 && consume > 0 ==> (first - 1) * consume < INITIAL_NOISE_BUDGET)
  {
    assert (64 - first) * consume >= 0;
    assert (64 - consume) * 64 >= 0;
    assert (first - 1) * consume == first * consume - consume;
  }

  /** With the options the constructor accepts, 64 measured clients never exceed the initial budget. */
  lemma FewClientsAreClean(w: World, es: seq<Event>, w': World, side: Side)
    requires Start(w) && Runs(w, es, w') && !Of(w', side).exhausted && FirstPeers(w'.trace, side) <= 64
    ensures ReadAll(EMPTY_LEDGER, side, w'.trace, Of(w', side).cfg.consumeBeforePunch).errors == {}
  {
    CheckerVerdicts(w, es, w', side);
    StartInv(w);
    RunKeeps(w, es, w');
    var consume := Of(w', side).cfg.consumeBeforePunch;
    assert consume <= 64;
    hide WorldInv, Continues, Runs, ReadAll, FirstPeers;
    WithinBudget(FirstPeers(w'.trace, side), consume);
    var l := ReadAll(EMPTY_LEDGER, side, w'.trace, consume);
    forall e ensures e !in l.errors {
      match e { case OutsideWindow => case NotDuringSweep => case CountMismatch => case PrecedesMeasurement => case Reassigned => }
    }
  }

  // ----- the two budgets -----

  /** The ports that a trace says one NAT consumed at one stage. */
  function NoiseRows(rows: seq<Row>, side: Side, stage: Stage): nat
    decreases |rows|
  {
    if rows == [] then 0
    else
      var row := rows[0];
      (if row.MappingConsumed? && row.side == side && row.stage == stage then 1 else 0) + NoiseRows(rows[1..], side, stage)
  }

  lemma RowCountsNoise(l: Ledger, side: Side, row: Row, wanted: nat)
    ensures var l', mine := Read(l, side, row, wanted), row.MappingConsumed? && row.side == side;
      && l'.noiseInitial == l.noiseInitial + (if mine && row.stage.AfterMeasurement? then 1 else 0)
      && l'.noiseSweep == l.noiseSweep + (if mine && row.stage.DuringSweep? then 1 else 0)
  {
  }

  lemma {:induction false} LedgerCountsNoise(l: Ledger, side: Side, rows: seq<Row>, wanted: nat)
    ensures var l' := ReadAll(l, side, rows, wanted);
      && l'.noiseInitial == l.noiseInitial + NoiseRows(rows, side, AfterMeasurement)
      && l'.noiseSweep == l.noiseSweep + NoiseRows(rows, side, DuringSweep)
    decreases |rows|
  {
    if rows != [] {
      RowCountsNoise(l, side, rows[0], wanted);
      hide Read;
      LedgerCountsNoise(Read(l, side, rows[0], wanted), side, rows[1..], wanted);
    }
  }

  /**
   Each noise budget by itself: while no allocation has failed, what the trace shows consumed at a stage and what is left
   for it make up the budget; and the initial one has paid each measured client in full, as long as it lasted.
   */
  lemma NoiseBudgetsInRuns(w: World, es: seq<Event>, w': World, side: Side)
    requires Start(w) && Runs(w, es, w') && !Of(w', side).exhausted
    ensures var n := Of(w', side);
      && NoiseRows(w'.trace, side, AfterMeasurement) + n.initialNoiseRemaining == INITIAL_NOISE_BUDGET
      && NoiseRows(w'.trace, side, DuringSweep) + n.sweepNoiseRemaining == n.cfg.sweepLimit
      && NoiseRows(w'.trace, side, AfterMeasurement) == Min(INITIAL_NOISE_BUDGET, FirstPeers(w'.trace, side) * n.cfg.consumeBeforePunch)
  {
    StartInv(w);
    StartEvidence(w);
    RunEvidence(w, es, w');
    var n := Of(w', side);
    hide WorldInv, Start, Runs, TableAgrees, ClientsAgree, VerdictsAgree, ReadAll, FirstPeers, NoiseRows;
    assert SideOk(n, w'.trace) && n.cfg.side == side;
    LedgerCountsNoise(EMPTY_LEDGER, side, w'.trace, n.cfg.consumeBeforePunch);
  }
}
