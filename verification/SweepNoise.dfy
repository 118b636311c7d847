/** How much sweep noise a run injects: how often it falls due follows from the mappings each client opens. */
module SweepNoise {
  import opened Arithmetic
  import opened NatModel
  import opened NatWorld
  import opened WorldSafety
  import opened EvidenceAgreement
  import opened EvidenceRuns
  import opened DirectTraffic
  import opened StunCodec
  import opened Wrappers

  // ----- the peer mappings in a trace -----

  predicate Starts(row: Row, side: Side, c: Endpoint) {
    row.PeerStarted? && row.side == side && row.client == c
  }

  /** Every so many mappings of its own, a client's next one is due for noise. */
  predicate Due(row: Row, side: Side, every: nat) {
    row.PeerStarted? && row.side == side && row.prior != 0 && every != 0 && row.prior % every == 0
  }

  function StartsOf(rows: seq<Row>, side: Side, c: Endpoint): nat
    decreases |rows|
  {
    if rows == [] then 0 else StartsOf(rows[..|rows| - 1], side, c) + if Starts(rows[|rows| - 1], side, c) then 1 else 0
  }

  function DueRows(rows: seq<Row>, side: Side, every: nat): nat
    decreases |rows|
  {
    if rows == [] then 0 else DueRows(rows[..|rows| - 1], side, every) + if Due(rows[|rows| - 1], side, every) then 1 else 0
  }

  function DueRowsOf(rows: seq<Row>, side: Side, every: nat, c: Endpoint): nat
    decreases |rows|
  {
    if rows == [] then 0
    else
      var row := rows[|rows| - 1];
      DueRowsOf(rows[..|rows| - 1], side, every, c) + if Due(row, side, every) && row.client == c then 1 else 0
  }

  /** Each row names how many mappings its client had opened before. */
  ghost predicate Numbered(rows: seq<Row>, side: Side) {
    forall i | 0 <= i < |rows| && rows[i].PeerStarted? && rows[i].side == side :: rows[i].prior == StartsOf(rows[..i], side, rows[i].client)
  }

  lemma {:induction false} NoStarts(rows: seq<Row>, more: seq<Row>, side: Side, every: nat)
    requires forall row | row in more :: !(row.PeerStarted? && row.side == side)
    ensures forall c :: StartsOf(rows + more, side, c) == StartsOf(rows, side, c)
    ensures DueRows(rows + more, side, every) == DueRows(rows, side, every)
    ensures Numbered(rows, side) ==> Numbered(rows + more, side)
    decreases |more|
  {
    if more == [] {
      assert rows + more == rows;
    } else {
      var n := |more| - 1;
      assert more == more[..n] + [more[n]];
      NoStarts(rows, more[..n], side, every);
      assert (rows + more)[..|rows + more| - 1] == rows + more[..n];
      if Numbered(rows, side) {
        forall i | 0 <= i < |rows + more| && (rows + more)[i].PeerStarted? && (rows + more)[i].side == side
          ensures (rows + more)[i].prior == StartsOf((rows + more)[..i], side, (rows + more)[i].client)
        {
          assert i < |rows| + n;
          assert (rows + more[..n])[..i] == (rows + more)[..i];
          assert (rows + more[..n])[i] == (rows + more)[i];
        }
      }
    }
  }

  lemma OneStart(rows: seq<Row>, row: Row, side: Side, every: nat)
    requires row.PeerStarted? && row.side == side
    ensures forall c :: StartsOf(rows + [row], side, c) == StartsOf(rows, side, c) + if row.client == c then 1 else 0
    ensures DueRows(rows + [row], side, every) == DueRows(rows, side, every) + if Due(row, side, every) then 1 else 0
    ensures Numbered(rows, side) && row.prior == StartsOf(rows, side, row.client) ==> Numbered(rows + [row], side)
  {
    var more := rows + [row];
    assert more[..|rows|] == rows;
    if Numbered(rows, side) && row.prior == StartsOf(rows, side, row.client) {
      forall i | 0 <= i < |more| && more[i].PeerStarted? && more[i].side == side
        ensures more[i].prior == StartsOf(more[..i], side, more[i].client)
      {
        if i < |rows| { assert more[..i] == rows[..i]; }
      }
    }
  }

  // ----- one NAT -----

  /** What is left for sweeps, and the mappings of each client, as the trace has them. */
  ghost predicate SweepOk(n: NatState, trace: seq<Row>) {
    !n.exhausted ==>
      && n.sweepNoiseRemaining == Max(0, n.cfg.sweepLimit - DueRows(trace, n.cfg.side, n.cfg.sweepEvery) * n.cfg.sweepCount)
      && (forall c :: Count(n.peerMappingCounts, c) == StartsOf(trace, n.cfg.side, c))
      && Numbered(trace, n.cfg.side)
  }

  /** Nothing that sweeps depend on has changed, and no mapping was opened. */
  ghost predicate Idle(n: NatState, n': NatState, more: seq<Row>) {
    && n'.cfg == n.cfg && n'.sweepNoiseRemaining == n.sweepNoiseRemaining && n'.peerMappingCounts == n.peerMappingCounts
    && (n.exhausted ==> n'.exhausted)
    && forall row | row in more :: !(row.PeerStarted? && row.side == n.cfg.side)
  }

  lemma IdleKeeps(n: NatState, n': NatState, trace: seq<Row>, more: seq<Row>)
    requires SweepOk(n, trace) && Idle(n, n', more)
    ensures SweepOk(n', trace + more)
  {
    NoStarts(trace, more, n.cfg.side, n.cfg.sweepEvery);
    hide Numbered, StartsOf, DueRows;
  }

  /** A new peer mapping that was not denied a port. */
  ghost predicate OpensOne(n: NatState, n': NatState, c: Endpoint, row: Row) {
    && n'.cfg == n.cfg && !n.exhausted
    && row.PeerStarted? && row.side == n.cfg.side && row.client == c && row.prior == Count(n.peerMappingCounts, c)
    && n'.peerMappingCounts == n.peerMappingCounts[c := row.prior + 1]
    && n'.sweepNoiseRemaining ==
         if Due(row, n.cfg.side, n.cfg.sweepEvery) then Max(0, n.sweepNoiseRemaining - n.cfg.sweepCount) else n.sweepNoiseRemaining
  }

  lemma OpeningKeeps(n: NatState, n': NatState, trace: seq<Row>, c: Endpoint, row: Row)
    requires SweepOk(n, trace) && OpensOne(n, n', c, row)
    ensures SweepOk(n', trace + [row])
  {
    OneStart(trace, row, n.cfg.side, n.cfg.sweepEvery);
    var k := DueRows(trace, n.cfg.side, n.cfg.sweepEvery);
    assert (k + 1) * n.cfg.sweepCount == k * n.cfg.sweepCount + n.cfg.sweepCount;
    hide Numbered, StartsOf, DueRows, Due;
  }

  lemma {:induction false} ConsumeIsIdle(n: NatState, client: Endpoint, count: nat, stage: Stage, prior: nat)
    ensures var o := ConsumeNoise(n, client, count, stage, prior);
      && Idle(n, o.state, o.rows) && o.state.initialNoiseRemaining == n.initialNoiseRemaining
      && (o.raised ==> o.state.exhausted)
    decreases count
  {
    if count != 0 {
      hide Allocate1;
      ConsumeIsIdle(TakeNoise(n), client, count - 1, stage, prior);
    }
  }

  /** Opening a peer mapping: noise rows, then the row that names it. */
  lemma OpenPeerSweeps(n: NatState, key: Key, trace: seq<Row>)
    requires SweepOk(n, trace)
    ensures var o := OpenPeer(n, key); SweepOk(o.state, trace + o.rows) && (n.exhausted ==> o.state.exhausted) && o.state.cfg == n.cfg
  {
    var prior := Count(n.peerMappingCounts, key.client);
    var o := OpenPeer(n, key);
    hide ConsumeNoise;
    if NoiseDue(n, key.client).Some? {
      var (stage, noise) := NoiseDue(n, key.client).value;
      ConsumeIsIdle(n, key.client, noise, stage, prior);
    }
    var noisy := InjectNoise(n, key.client);
    assert noisy.raised ==> noisy.state.exhausted;
    assert forall row | row in noisy.rows :: !(row.PeerStarted? && row.side == n.cfg.side);
    hide SweepOk;
    if !o.state.exhausted {
      var before := noisy.state.(sweepNoiseRemaining := n.sweepNoiseRemaining);
      assert Idle(n, before, noisy.rows);
      IdleKeeps(n, before, trace, noisy.rows);
      var row := o.rows[|noisy.rows|];
      assert o.rows == noisy.rows + [row];
      assert OpensOne(before, o.state, key.client, row);
      OpeningKeeps(before, o.state, trace + noisy.rows, key.client, row);
      assert trace + noisy.rows + [row] == trace + o.rows;
    } else {
      ExhaustedIsOk(o.state, trace + o.rows);
    }
  }

  lemma ExhaustedIsOk(n: NatState, trace: seq<Row>)
    requires n.exhausted
    ensures SweepOk(n, trace)
  {
  }

  lemma MapAndQueueIsIdle(n: NatState, key: Key, data: Bytes)
    ensures var o := MapAndQueue(n, key, data); Idle(n, o.state, o.rows)
  {
    hide Allocate1;
  }

  lemma TranslateSweeps(n: NatState, client: Endpoint, destination: Endpoint, data: Bytes, trace: seq<Row>)
    requires SweepOk(n, trace)
    ensures var o := TranslateOutbound(n, client, destination, data);
      SweepOk(o.state, trace + o.rows) && (n.exhausted ==> o.state.exhausted) && o.state.cfg == n.cfg
  {
    var key := Key(client, destination);
    hide OpenPeer, MapAndQueue, SweepOk, Idle;
    OpenPeerSweeps(n, key, trace);
    var start := if key in n.mappings then Out(n, [], false) else OpenPeer(n, key);
    assert trace + [] == trace;
    MapAndQueueIsIdle(start.state, key, data);
    var rest := MapAndQueue(start.state, key, data);
    IdleKeeps(start.state, rest.state, trace + start.rows, rest.rows);
    assert trace + start.rows + rest.rows == trace + (start.rows + rest.rows);
    IdleTells(start.state, rest.state, rest.rows);
  }

  lemma IdleTells(n: NatState, n': NatState, more: seq<Row>)
    requires Idle(n, n', more)
    ensures n'.cfg == n.cfg && (n.exhausted ==> n'.exhausted)
  {
  }

  lemma StunIsIdle(n: NatState, client: Endpoint, observer: Endpoint)
    ensures var o := HandleStunRequest(n, client, observer); Idle(n, o.state, o.rows)
  {
    hide Allocate1;
  }

  /** A side's own datagram; the rows are that side's. */
  lemma CaptureSweeps(n: NatState, client: Endpoint, destination: Endpoint, data: Bytes, trace: seq<Row>)
    requires SweepOk(n, trace)
    ensures var o := CaptureEgress(n, client, destination, data); SweepOk(o.state, trace + o.rows) && o.state.cfg == n.cfg
  {
    var captured, row := RecordClient(n, client), EgressCaptured(n.cfg.side, client, destination, |data|);
    var rest := if destination in n.cfg.observers then
                  if ParseBindingRequest(data).Some? then HandleStunRequest(captured, client, destination)
                  else Out(captured, [], false)
                else TranslateOutbound(captured, client, destination, data);
    assert CaptureEgress(n, client, destination, data) == Out(rest.state, [row] + rest.rows, rest.raised);
    assert Idle(n, captured, [row]);
    assert trace + ([row] + rest.rows) == trace + [row] + rest.rows;
    hide TranslateOutbound, HandleStunRequest, ParseBindingRequest, CaptureEgress, SweepOk;
    IdleKeeps(n, captured, trace, [row]);
    if destination in n.cfg.observers {
      StunIsIdle(captured, client, destination);
      assert Idle(captured, rest.state, rest.rows);
      IdleKeeps(captured, rest.state, trace + [row], rest.rows);
    } else {
      hide Idle;
      TranslateSweeps(captured, client, destination, data, trace + [row]);
    }
  }

  // ----- both NATs -----

  ghost predicate WorldSweeps(w: World) {
    w.a.cfg.side == SideA && w.b.cfg.side == SideB && SweepOk(w.a, w.trace) && SweepOk(w.b, w.trace)
  }

  /** Both NATs are idle. */
  ghost predicate Still(w: World, w': World) {
    && w.trace <= w'.trace
    && Idle(w.a, w'.a, w'.trace[|w.trace|..]) && Idle(w.b, w'.b, w'.trace[|w.trace|..])
  }

  lemma StillKeeps(w: World, w': World)
    requires WorldSweeps(w) && Still(w, w')
    ensures WorldSweeps(w')
  {
    var more := w'.trace[|w.trace|..];
    assert w'.trace == w.trace + more;
    IdleTells(w.a, w'.a, more);
    IdleTells(w.b, w'.b, more);
    hide SweepOk, Idle;
    IdleKeeps(w.a, w'.a, w.trace, more);
    IdleKeeps(w.b, w'.b, w.trace, more);
  }

  /** Peer traffic and what is put off leave both NATs idle. */
  lemma TrafficIsStill(w: World, e: Event)
    requires WorldInv(w) && Enabled(w, e) && (e.Flush? || e.Arrive? || e.Land?)
    ensures PeersKnown(w) && FlightsKnown(w) && Still(w, Step(w, e))
  {
    match e
    case Flush(side, key, g) =>
      FlushOutcome(w, side, key, g);
      FlushIsStill(w, side, key, Step(w, e));
    case Arrive(side, port, source, data, g) =>
      var k := OpenPortHasMapping(w, side, port);
      ArriveOutcome(w, side, port, source, data, g, k);
      var f := Flight(side, k, data, source, None, 0);
      hide Step, WorldInv, FateOf, SeenFrom;
    case Land(index) =>
      LandOutcome(w, index);
      hide Step, WorldInv, SeenFrom;
  }

  lemma FlushIsStill(w: World, side: Side, key: Key, w': World)
    requires key in Of(w, side).mappings && |Of(w, side).mappings[key].pending| > 0
    requires
      || (exists row: Row :: !row.PeerStarted? && w' == Popped(w, side, key).(trace := w.trace + [row]))
      || exists k :: HasEndpoint(Of(w, side.Other()), k, key.destination) && Reaches(w, side, key, k, w')
    ensures Still(w, w')
  {
    hide FateOf, SeenFrom, Copies;
  }

  lemma WholeStill(w: World, w': World, more: seq<Row>, side: Side)
    requires w'.trace == w.trace + more && Idle(Of(w, side), Of(w', side), more) && Of(w', side.Other()) == Of(w, side.Other())
    requires forall row | row in more :: !row.PeerStarted?
    ensures Still(w, w')
  {
    assert w'.trace[|w.trace|..] == more;
  }

  lemma StunIsStill(w: World, side: Side, client: Endpoint, observer: Endpoint)
    ensures Still(w, Apply(w, side, HandleStunRequest(Of(w, side), client, observer)))
  {
    StunIsIdle(Of(w, side), client, observer);
    StunStartsNothing(Of(w, side), client, observer);
    var o := HandleStunRequest(Of(w, side), client, observer);
    hide HandleStunRequest, Idle, Still;
    WholeStill(w, Apply(w, side, o), o.rows, side);
  }

  lemma BindsAreStill(w: World, side: Side, key: Key)
    requires key in Of(w, side).mappings
    ensures Still(w, With(w, side, BindMapping(Of(w, side), key)))
    ensures Still(w, Apply(w, side, ReassignMappingPort(Of(w, side), key)))
  {
    BusyIsIdle(Of(w, side), key);
    assert w.trace + [] == w.trace;
    hide ReassignMappingPort, Still;
    WholeStill(w, With(w, side, BindMapping(Of(w, side), key)), [], side);
    WholeStill(w, Apply(w, side, ReassignMappingPort(Of(w, side), key)), [], side);
  }

  lemma StepSweeps(w: World, e: Event)
    requires WorldInv(w) && WorldSweeps(w) && Enabled(w, e)
    ensures PeersKnown(w) && FlightsKnown(w) && WorldSweeps(Step(w, e))
  {
    WorldInvKnows(w);
    hide WorldSweeps, Still, CaptureEgress, HandleStunRequest, ReassignMappingPort, BindMapping, ReportBound;
    match e
    case Stun(side, client, observer) =>
      StunIsStill(w, side, client, observer);
      StillKeeps(w, Step(w, e));
    case Egress(side, client, destination, data) =>
      EgressSweeps(w, side, client, destination, data);
    case BindOk(side, key) =>
      BindsAreStill(w, side, key);
      StillKeeps(w, Step(w, e));
    case BindBusy(side, key) =>
      BindsAreStill(w, side, key);
      StillKeeps(w, Step(w, e));
    case Report(side, key) =>
      ReportIsStill(w, side, key);
      StillKeeps(w, Step(w, e));
    case _ =>
      TrafficIsStill(w, e);
      StillKeeps(w, Step(w, e));
  }

  lemma StunStartsNothing(n: NatState, client: Endpoint, observer: Endpoint)
    ensures forall row | row in HandleStunRequest(n, client, observer).rows :: !row.PeerStarted?
  {
    hide Allocate1;
  }

  lemma BusyIsIdle(n: NatState, key: Key)
    requires key in n.mappings
    ensures Idle(n, ReassignMappingPort(n, key).state, []) && ReassignMappingPort(n, key).rows == []
  {
    hide Allocate1;
  }

  lemma ReportIsStill(w: World, side: Side, key: Key)
    requires key in Of(w, side).mappings
    ensures Still(w, ReportBound(w, side, key))
  {
    if !Of(w, side).mappings[key].reported {
      var rows := ReportRows(w, side, key);
      WholeStill(w, ReportBound(w, side, key), rows, side);
    }
  }

  lemma EgressSweeps(w: World, side: Side, client: Endpoint, destination: Endpoint, data: Bytes)
    requires WorldSweeps(w)
    ensures WorldSweeps(Apply(w, side, CaptureEgress(Of(w, side), client, destination, data)))
  {
    var n, peer := Of(w, side), Of(w, side.Other());
    CaptureSweeps(n, client, destination, data, w.trace);
    var o := CaptureEgress(n, client, destination, data);
    CaptureIsOwn(n, client, destination, data);
    hide SweepOk, CaptureEgress;
    assert Idle(peer, peer, o.rows);
    IdleKeeps(peer, peer, w.trace, o.rows);
  }

  lemma CaptureIsOwn(n: NatState, client: Endpoint, destination: Endpoint, data: Bytes)
    ensures forall row | row in CaptureEgress(n, client, destination, data).rows && row.PeerStarted? :: row.side == n.cfg.side
  {
    CaptureEgressRows(n, client, destination, data);
    hide CaptureEgress;
  }

  lemma StartSweeps(w: World)
    requires Start(w)
    ensures WorldSweeps(w)
  {
    assert 0 * w.a.cfg.sweepCount == 0 && 0 * w.b.cfg.sweepCount == 0;
  }

  lemma {:induction false} RunSweeps(w: World, es: seq<Event>, w': World)
    requires WorldInv(w) && WorldSweeps(w) && Runs(w, es, w')
    ensures WorldSweeps(w')
    decreases |es|
  {
    if es != [] {
      StepKeeps(w, es[0]);
      StepSweeps(w, es[0]);
      hide WorldInv, WorldSweeps, Step;
      RunSweeps(Step(w, es[0]), es[1..], w');
    }
  }

  // ----- what comes of it -----

  /** The client's mappings that were due, out of so many: every so many, beginning with the next after the first so many. */
  function DueAmong(count: nat, every: nat): nat {
    if count == 0 || every == 0 then 0 else (count - 1) / every
  }

  lemma NextDue(count: nat, every: nat)
    requires every > 0
    ensures DueAmong(count + 1, every) == DueAmong(count, every) + if count != 0 && count % every == 0 then 1 else 0
  {
    if count > 0 {
      var q := count / every;
      assert count == q * every + count % every;
      if count % every == 0 {
        assert count - 1 == (q - 1) * every + (every - 1);
        RemainderIs(count - 1, q - 1, every, every - 1);
      } else {
        RemainderIs(count - 1, q, every, count % every - 1);
      }
    }
  }

  lemma {:induction false} DueOfClient(rows: seq<Row>, side: Side, every: nat, c: Endpoint)
    requires Numbered(rows, side)
    ensures DueRowsOf(rows, side, every, c) == DueAmong(StartsOf(rows, side, c), every)
    decreases |rows|
  {
    if rows != [] {
      var n := |rows| - 1;
      NumberedBefore(rows, side);
      DueOfClient(rows[..n], side, every, c);
      var count := StartsOf(rows[..n], side, c);
      if every > 0 { NextDue(count, every); }
      assert Starts(rows[n], side, c) ==> rows[n].prior == count;
      hide DueAmong, Numbered;
    }
  }

  lemma NumberedBefore(rows: seq<Row>, side: Side)
    requires Numbered(rows, side) && rows != []
    ensures Numbered(rows[..|rows| - 1], side)
  {
    var before := rows[..|rows| - 1];
    forall i | 0 <= i < |before| ensures before[i] == rows[i] && before[..i] == rows[..i] {
    }
  }

  /**
   In every run in which no allocation has failed: each client's mappings are numbered in the order it opened them; of `k`
   mappings to peers, (k - 1) / every were due for noise; and the sweep noise in the trace is what all clients' due mappings
   ask for, as long as the limit lasts.
   */
  lemma SweepNoiseInRuns(w: World, es: seq<Event>, w': World, side: Side)
    requires Start(w) && Runs(w, es, w') && !Of(w', side).exhausted
    ensures var n, t := Of(w', side), w'.trace;
      && Numbered(t, side)
      && (forall c :: StartsOf(t, side, c) == |set k | k in n.mappings && k.client == c && k.destination !in n.cfg.observers|)
      && (forall c :: DueRowsOf(t, side, n.cfg.sweepEvery, c) == DueAmong(StartsOf(t, side, c), n.cfg.sweepEvery))
      && NoiseRows(t, side, DuringSweep) == Min(n.cfg.sweepLimit, DueRows(t, side, n.cfg.sweepEvery) * n.cfg.sweepCount)
  {
    StartInv(w);
    StartSweeps(w);
    RunSweeps(w, es, w');
    NoiseBudgetsInRuns(w, es, w', side);
    TableInRuns(w, es, w', side);
    var n, t := Of(w', side), w'.trace;
    assert n.cfg.side == side;
    forall c ensures DueRowsOf(t, side, n.cfg.sweepEvery, c) == DueAmong(StartsOf(t, side, c), n.cfg.sweepEvery) {
      DueOfClient(t, side, n.cfg.sweepEvery, c);
    }
    hide WorldInv, Start, Runs, Numbered, StartsOf, DueRows, DueRowsOf, NoiseRows;
  }
}
