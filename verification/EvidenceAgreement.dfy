/** The trace checker against the simulator: what the replay concludes, for every run, from the rows the run wrote. */
module EvidenceAgreement {
  import opened Arithmetic
  import opened PortRing
  import opened NatModel
  import opened NatTable
  import opened NatWorld
  import opened WorldSafety
  import opened Evidence
  import opened StunCodec
  import opened Wrappers

  /** Clients that opened their first peer mapping after a measurement: those that draw on the initial budget. */
  function FirstPeers(rows: seq<Row>, side: Side): nat
    decreases |rows|
  {
    if rows == [] then 0
    else
      var row := rows[0];
      (if row.PeerStarted? && row.side == side && row.prior == 0 && row.samples > 0 then 1 else 0) + FirstPeers(rows[1..], side)
  }

  lemma {:induction false} FirstPeersSplits(xs: seq<Row>, ys: seq<Row>, side: Side)
    ensures FirstPeers(xs + ys, side) == FirstPeers(xs, side) + FirstPeers(ys, side)
    decreases |xs|
  {
    if xs == [] {
      assert xs + ys == ys;
    } else {
      assert (xs + ys)[1..] == xs[1..] + ys;
      FirstPeersSplits(xs[1..], ys, side);
    }
  }

  lemma {:induction false} NoFirstPeers(rows: seq<Row>, side: Side)
    requires forall row | row in rows :: NoNoise(row, side)
    ensures FirstPeers(rows, side) == 0
    decreases |rows|
  {
    if rows != [] {
      assert NoNoise(rows[0], side);
      NoFirstPeers(rows[1..], side);
    }
  }

  /** The checker knows which clients were measured and which have a peer. */
  ghost predicate ClientsAgree(n: NatState, l: Ledger) {
    && (forall c :: c in l.observed <==> Count(n.measurements, c) > 0)
    && (forall c | c in l.observed :: l.observed[c] <= l.last)
    && (forall c :: c in l.firstPeer <==> Count(n.peerMappingCounts, c) > 0)
    && (forall c | c in l.initialNoise || c in l.firstNoise :: c in l.firstPeer)
  }

  /** Noise read plus noise left is the budget, and `first` clients have drawn on the initial one. */
  ghost predicate BudgetsAgree(n: NatState, l: Ledger, first: nat) {
    && l.noiseInitial + n.initialNoiseRemaining == INITIAL_NOISE_BUDGET
    && l.noiseSweep + n.sweepNoiseRemaining == n.cfg.sweepLimit
    && n.initialNoiseRemaining == Max(0, INITIAL_NOISE_BUDGET - first * n.cfg.consumeBeforePunch)
  }

  /** The verdicts on noise: two never appear, the other two appear exactly when the budget has run short. */
  ghost predicate VerdictsAgree(consume: nat, l: Ledger, first: nat) {
    && OutsideWindow !in l.errors && NotDuringSweep !in l.errors
    && (CountMismatch in l.errors <==> first * consume > INITIAL_NOISE_BUDGET)
    && (PrecedesMeasurement in l.errors <==> consume > 0 && first > 0 && (first - 1) * consume >= INITIAL_NOISE_BUDGET)
  }

  ghost predicate NoiseAgrees(n: NatState, l: Ledger, first: nat) {
    ClientsAgree(n, l) && BudgetsAgree(n, l, first) && VerdictsAgree(n.cfg.consumeBeforePunch, l, first)
  }

  lemma NoiseFrame(n: NatState, l: Ledger, n': NatState, l': Ledger, first: nat)
    requires NoiseAgrees(n, l, first) && SameNoise(l, l') && n'.cfg == n.cfg
    requires n'.measurements == n.measurements && n'.peerMappingCounts == n.peerMappingCounts
    requires n'.initialNoiseRemaining == n.initialNoiseRemaining && n'.sweepNoiseRemaining == n.sweepNoiseRemaining
    ensures NoiseAgrees(n', l', first)
  {
    assert forall e | e != Reassigned :: e in l.errors <==> e in l'.errors by {
      forall e | e != Reassigned ensures e in l.errors <==> e in l'.errors {
        assert e in l.errors <==> e in l.errors - {Reassigned};
        assert e in l'.errors <==> e in l'.errors - {Reassigned};
      }
    }
  }

  // ----- noise -----

  /** The ledger after `count` rows of initial noise inside the window. */
  function AfterInitial(l: Ledger, client: Endpoint, count: nat): Ledger {
    if count == 0 then l
    else l.(last := l.last + count, noiseInitial := l.noiseInitial + count,
            initialNoise := l.initialNoise[client := Count(l.initialNoise, client) + count],
            firstNoise := if client in l.firstNoise then l.firstNoise else l.firstNoise[client := l.last + 1])
  }

  lemma AfterInitialAdds(l: Ledger, client: Endpoint, count: nat)
    ensures AfterInitial(AfterInitial(l, client, 1), client, count) == AfterInitial(l, client, count + 1)
  {
    var l1 := AfterInitial(l, client, 1);
    if count > 0 {
      assert l1.initialNoise[client := Count(l1.initialNoise, client) + count]
        == l.initialNoise[client := Count(l.initialNoise, client) + (count + 1)];
    }
  }

  lemma ReadInitialRow(l: Ledger, side: Side, row: Row, wanted: nat)
    requires row.MappingConsumed? && row.side == side && row.stage.AfterMeasurement?
    requires row.client in l.observed && row.client !in l.firstPeer
    ensures Read(l, side, row, wanted) == AfterInitial(l, row.client, 1)
  {
    assert l.errors + {} == l.errors;
  }

  lemma ConsumeNoiseUnrolls(n: NatState, client: Endpoint, count: nat, stage: Stage, prior: nat)
    requires count > 0 && !ConsumeNoise(n, client, count, stage, prior).raised
    ensures var rows, tail := ConsumeNoise(n, client, count, stage, prior).rows, ConsumeNoise(TakeNoise(n), client, count - 1, stage, prior);
      && !tail.raised && rows != [] && rows[1..] == tail.rows
      && rows[0].MappingConsumed? && (rows[0].side, rows[0].client, rows[0].stage, rows[0].prior) == (n.cfg.side, client, stage, prior)
  {
    hide Allocate1;
  }

  lemma ReadAllFirst(l: Ledger, side: Side, rows: seq<Row>, wanted: nat)
    requires rows != []
    ensures ReadAll(l, side, rows, wanted) == ReadAll(Read(l, side, rows[0], wanted), side, rows[1..], wanted)
  {
    hide Read;
  }

  lemma {:induction false} ReadInitialNoise(n: NatState, client: Endpoint, count: nat, prior: nat, l: Ledger, wanted: nat)
    requires client in l.observed && client !in l.firstPeer
    requires !ConsumeNoise(n, client, count, AfterMeasurement, prior).raised
    ensures ReadAll(l, n.cfg.side, ConsumeNoise(n, client, count, AfterMeasurement, prior).rows, wanted)
      == AfterInitial(l, client, count)
    decreases count
  {
    hide *;
    if count == 0 {
      NoInitialNoise(n, client, prior, l, wanted);
    } else {
      FirstInitialNoise(n, client, l);
      ConsumeNoiseUnrolls(n, client, count, AfterMeasurement, prior);
      var rows, l1 := ConsumeNoise(n, client, count, AfterMeasurement, prior).rows, AfterInitial(l, client, 1);
      ReadInitialRow(l, n.cfg.side, rows[0], wanted);
      ReadAllFirst(l, n.cfg.side, rows, wanted);
      ReadInitialNoise(TakeNoise(n), client, count - 1, prior, l1, wanted);
      AfterInitialAdds(l, client, count - 1);
    }
  }

  lemma NoInitialNoise(n: NatState, client: Endpoint, prior: nat, l: Ledger, wanted: nat)
    ensures ReadAll(l, n.cfg.side, ConsumeNoise(n, client, 0, AfterMeasurement, prior).rows, wanted) == AfterInitial(l, client, 0)
  {
    hide Read, TakeNoise, Allocate1;
  }

  lemma FirstInitialNoise(n: NatState, client: Endpoint, l: Ledger)
    requires client in l.observed && client !in l.firstPeer
    ensures var l1 := AfterInitial(l, client, 1); client in l1.observed && client !in l1.firstPeer
    ensures TakeNoise(n).cfg == n.cfg
  {
    hide Allocate1;
  }

  lemma {:induction false} ReadSweepNoise(n: NatState, client: Endpoint, count: nat, prior: nat, l: Ledger, wanted: nat)
    requires client in l.firstPeer && prior > 0
    requires !ConsumeNoise(n, client, count, DuringSweep, prior).raised
    ensures ReadAll(l, n.cfg.side, ConsumeNoise(n, client, count, DuringSweep, prior).rows, wanted) ==
      l.(last := l.last + count, noiseSweep := l.noiseSweep + count)
    decreases count
  {
    if count != 0 {
      hide Allocate1;
      var o := ConsumeNoise(n, client, count, DuringSweep, prior);
      var l1 := Read(l, n.cfg.side, o.rows[0], wanted);
      ReadSweepNoise(TakeNoise(n), client, count - 1, prior, l1, wanted);
      assert o.rows[1..] == ConsumeNoise(TakeNoise(n), client, count - 1, DuringSweep, prior).rows;
      assert l1.errors == l.errors;
    }
  }

  lemma {:induction false} NoiseRowsAreNoise(n: NatState, client: Endpoint, count: nat, stage: Stage, prior: nat)
    ensures forall row | row in ConsumeNoise(n, client, count, stage, prior).rows :: row.MappingConsumed?
    ensures FirstPeers(ConsumeNoise(n, client, count, stage, prior).rows, n.cfg.side) == 0
    decreases count
  {
    if count != 0 {
      hide Allocate1;
      var o := ConsumeNoise(n, client, count, stage, prior);
      if Allocate1(n).Found? {
        NoiseRowsAreNoise(TakeNoise(n), client, count - 1, stage, prior);
        assert o.rows[1..] == ConsumeNoise(TakeNoise(n), client, count - 1, stage, prior).rows;
      }
    }
  }

  // ----- one new peer mapping -----

  function StartedRow(n: NatState, key: Key): Row {
    PeerStarted(n.cfg.side, key.client, key.destination, Count(n.peerMappingCounts, key.client), Count(n.measurements, key.client))
  }

  lemma ReadOpenPeer(n: NatState, key: Key, l: Ledger, wanted: nat)
    requires !OpenPeer(n, key).raised
    ensures ReadAll(l, n.cfg.side, OpenPeer(n, key).rows, wanted)
      == Read(ReadAll(l, n.cfg.side, InjectNoise(n, key.client).rows, wanted), n.cfg.side, StartedRow(n, key), wanted)
    ensures FirstPeers(OpenPeer(n, key).rows, n.cfg.side)
      == FirstPeers(InjectNoise(n, key.client).rows, n.cfg.side) + FirstPeers([StartedRow(n, key)], n.cfg.side)
  {
    hide InjectNoise, Read;
    var noisy := InjectNoise(n, key.client);
    ReadAllSplits(l, n.cfg.side, noisy.rows, [StartedRow(n, key)], wanted);
    FirstPeersSplits(noisy.rows, [StartedRow(n, key)], n.cfg.side);
  }

  /** The budget arithmetic of one more client drawing on the initial noise. */
  lemma OneMoreClient(first: nat, consume: nat, left: nat)
    requires left == Max(0, INITIAL_NOISE_BUDGET - first * consume)
    ensures left - Min(consume, left) == Max(0, INITIAL_NOISE_BUDGET - (first + 1) * consume)
    ensures (first * consume > INITIAL_NOISE_BUDGET || Min(consume, left) != consume)
      <==> (first + 1) * consume > INITIAL_NOISE_BUDGET
    ensures (consume > 0 && first > 0 && (first - 1) * consume >= INITIAL_NOISE_BUDGET) || (consume > 0 && Min(consume, left) == 0)
      <==> consume > 0 && first * consume >= INITIAL_NOISE_BUDGET
  {
    assert (first + 1) * consume == first * consume + consume;
    assert (first - 1) * consume == first * consume - consume;
  }

  /** What a measured client's first peer mapping leaves in the ledger. */
  function AfterFirstPeer(l: Ledger, client: Endpoint, noise: nat, wanted: nat): Ledger
    requires client in l.observed
  {
    AfterInitial(l, client, noise).(
      last := l.last + noise + 1,
      firstPeer := l.firstPeer + {client},
      errors := l.errors + When(noise != wanted, CountMismatch) + When(wanted > 0 && noise == 0, PrecedesMeasurement))
  }

  lemma ReadFirstPeer(n: NatState, key: Key, l: Ledger)
    requires ClientsAgree(n, l) && !OpenPeer(n, key).raised
    requires Count(n.peerMappingCounts, key.client) == 0 && Count(n.measurements, key.client) > 0
    ensures var o, wanted := OpenPeer(n, key), n.cfg.consumeBeforePunch;
      && ReadAll(l, n.cfg.side, o.rows, wanted) == AfterFirstPeer(l, key.client, Min(wanted, n.initialNoiseRemaining), wanted)
      && FirstPeers(o.rows, n.cfg.side) == 1
  {
    var c, wanted := key.client, n.cfg.consumeBeforePunch;
    var noise := Min(wanted, n.initialNoiseRemaining);
    ReadOpenPeer(n, key, l, wanted);
    assert c in l.observed && c !in l.firstPeer && c !in l.initialNoise && c !in l.firstNoise;
    ReadInitialNoise(n, c, noise, 0, l, wanted);
    NoiseRowsAreNoise(n, c, noise, AfterMeasurement, 0);
    hide ConsumeNoise, ReadAll, ClientsAgree;
    assert InjectNoise(n, c).rows == ConsumeNoise(n, c, noise, AfterMeasurement, 0).rows;
    ReadStartedRow(n, key, l, noise, wanted);
  }

  lemma ReadStartedRow(n: NatState, key: Key, l: Ledger, noise: nat, wanted: nat)
    requires key.client in l.observed && key.client !in l.initialNoise && key.client !in l.firstNoise
    requires l.observed[key.client] <= l.last
    requires Count(n.peerMappingCounts, key.client) == 0
    ensures Read(AfterInitial(l, key.client, noise), n.cfg.side, StartedRow(n, key), wanted)
      == AfterFirstPeer(l, key.client, noise, wanted)
  {
    var l1 := AfterInitial(l, key.client, noise);
    assert Count(l1.initialNoise, key.client) == noise;
    assert Count(l1.firstNoise, key.client) == if noise == 0 then 0 else l.last + 1;
  }

  /** A measured client's first peer mapping: noise out of the initial budget, and the checker's verdict on it. */
  lemma FirstPeerAgrees(n: NatState, n': NatState, c: Endpoint, noise: nat, l: Ledger, first: nat)
    requires NoiseAgrees(n, l, first) && c in l.observed && n'.cfg == n.cfg
    requires Count(n.peerMappingCounts, c) == 0 && noise == Min(n.cfg.consumeBeforePunch, n.initialNoiseRemaining)
    requires n'.measurements == n.measurements && n'.peerMappingCounts == n.peerMappingCounts[c := 1]
    requires n'.initialNoiseRemaining == n.initialNoiseRemaining - noise && n'.sweepNoiseRemaining == n.sweepNoiseRemaining
    ensures NoiseAgrees(n', AfterFirstPeer(l, c, noise, n.cfg.consumeBeforePunch), first + 1)
  {
    OneMoreClient(first, n.cfg.consumeBeforePunch, n.initialNoiseRemaining);
    var l2 := AfterFirstPeer(l, c, noise, n.cfg.consumeBeforePunch);
    assert ClientsAgree(n', l2) by { hide VerdictsAgree, BudgetsAgree; }
    hide ClientsAgree;
  }

  /** A peer mapping of a client that has none and was never measured, or that already has one. */
  lemma OtherPeerAgrees(n: NatState, n': NatState, c: Endpoint, noise: nat, l: Ledger, l': Ledger, first: nat)
    requires NoiseAgrees(n, l, first) && n'.cfg == n.cfg && noise <= n.sweepNoiseRemaining
    requires Count(n.peerMappingCounts, c) > 0 || (Count(n.measurements, c) == 0 && noise == 0)
    requires n'.measurements == n.measurements
    requires n'.peerMappingCounts == n.peerMappingCounts[c := Count(n.peerMappingCounts, c) + 1]
    requires n'.initialNoiseRemaining == n.initialNoiseRemaining && n'.sweepNoiseRemaining == n.sweepNoiseRemaining - noise
    requires l' == l.(last := l'.last, noiseSweep := l.noiseSweep + noise, firstPeer := l.firstPeer + {c}) && l.last <= l'.last
    ensures NoiseAgrees(n', l', first)
  {
    assert ClientsAgree(n', l') by { hide VerdictsAgree, BudgetsAgree; }
    hide ClientsAgree;
  }

  /** The sweep noise a new peer mapping injects. */
  function SweepDue(n: NatState, client: Endpoint): nat {
    if NoiseDue(n, client).Some? && NoiseDue(n, client).value.0.DuringSweep? then NoiseDue(n, client).value.1 else 0
  }

  lemma ReadStartedOther(n: NatState, key: Key, l: Ledger, wanted: nat)
    requires if Count(n.peerMappingCounts, key.client) > 0 then key.client in l.firstPeer else key.client !in l.observed
    ensures Read(l, n.cfg.side, StartedRow(n, key), wanted) == l.(last := l.last + 1, firstPeer := l.firstPeer + {key.client})
  {
    assert key.client in l.firstPeer ==> l.firstPeer + {key.client} == l.firstPeer;
  }

  lemma ReadInjectedSweep(n: NatState, client: Endpoint, l: Ledger, wanted: nat)
    requires ClientsAgree(n, l) && !InjectNoise(n, client).raised
    requires Count(n.peerMappingCounts, client) > 0 || Count(n.measurements, client) == 0
    ensures var o := InjectNoise(n, client);
      && ReadAll(l, n.cfg.side, o.rows, wanted)
        == l.(last := l.last + SweepDue(n, client), noiseSweep := l.noiseSweep + SweepDue(n, client))
      && FirstPeers(o.rows, n.cfg.side) == 0
  {
    if NoiseDue(n, client).Some? {
      var noise, prior := SweepDue(n, client), Count(n.peerMappingCounts, client);
      assert client in l.firstPeer;
      ReadSweepNoise(n, client, noise, prior, l, wanted);
      NoiseRowsAreNoise(n, client, noise, DuringSweep, prior);
      hide ConsumeNoise, ReadAll, ClientsAgree;
    }
  }

  lemma ReadOtherPeer(n: NatState, key: Key, l: Ledger)
    requires ClientsAgree(n, l) && !OpenPeer(n, key).raised
    requires Count(n.peerMappingCounts, key.client) > 0 || Count(n.measurements, key.client) == 0
    ensures var o, noise := OpenPeer(n, key), SweepDue(n, key.client);
      && ReadAll(l, n.cfg.side, o.rows, n.cfg.consumeBeforePunch)
        == l.(last := l.last + noise + 1, noiseSweep := l.noiseSweep + noise, firstPeer := l.firstPeer + {key.client})
      && FirstPeers(o.rows, n.cfg.side) == 0
  {
    var c, wanted := key.client, n.cfg.consumeBeforePunch;
    ReadOpenPeer(n, key, l, wanted);
    hide ReadAll, InjectNoise;
    ReadInjectedSweep(n, c, l, wanted);
    var l1 := ReadAll(l, n.cfg.side, InjectNoise(n, c).rows, wanted);
    assert if Count(n.peerMappingCounts, c) > 0 then c in l1.firstPeer else c !in l1.observed;
    assert FirstPeers([StartedRow(n, key)], n.cfg.side) == 0;
    hide ClientsAgree, FirstPeers;
    ReadStartedOther(n, key, l1, wanted);
  }

  lemma {:induction false} ConsumeNoiseBudgets(n: NatState, client: Endpoint, count: nat, stage: Stage, prior: nat)
    ensures var n' := ConsumeNoise(n, client, count, stage, prior).state;
      && n'.cfg == n.cfg && n'.measurements == n.measurements && n'.peerMappingCounts == n.peerMappingCounts
      && n'.initialNoiseRemaining == n.initialNoiseRemaining && n'.sweepNoiseRemaining == n.sweepNoiseRemaining
    decreases count
  {
    hide Allocate1;
    if count != 0 {
      ConsumeNoiseBudgets(TakeNoise(n), client, count - 1, stage, prior);
    }
  }

  lemma OpenPeerFields(n: NatState, key: Key)
    requires !OpenPeer(n, key).raised
    ensures var n', due := OpenPeer(n, key).state, NoiseDue(n, key.client);
      && n'.cfg == n.cfg && n'.measurements == n.measurements
      && n'.peerMappingCounts == n.peerMappingCounts[key.client := Count(n.peerMappingCounts, key.client) + 1]
      && n'.sweepNoiseRemaining == n.sweepNoiseRemaining - SweepDue(n, key.client)
      && n'.initialNoiseRemaining == n.initialNoiseRemaining
           - if due.Some? && due.value.0.AfterMeasurement? then due.value.1 else 0
  {
    match NoiseDue(n, key.client)
    case None =>
    case Some((stage, noise)) =>
      ConsumeNoiseBudgets(n, key.client, noise, stage, Count(n.peerMappingCounts, key.client));
      hide ConsumeNoise;
  }

  ghost predicate OutAgrees(n: NatState, o: Out, l: Ledger, first: nat) {
    NoiseAgrees(o.state, ReadAll(l, n.cfg.side, o.rows, n.cfg.consumeBeforePunch), first + FirstPeers(o.rows, n.cfg.side))
  }

  lemma OpenFirstPeerAgrees(n: NatState, key: Key, l: Ledger, first: nat)
    requires NoiseAgrees(n, l, first) && !OpenPeer(n, key).raised
    requires Count(n.peerMappingCounts, key.client) == 0 && Count(n.measurements, key.client) > 0
    ensures OutAgrees(n, OpenPeer(n, key), l, first)
  {
    var o, c := OpenPeer(n, key), key.client;
    OpenPeerFields(n, key);
    ReadFirstPeer(n, key, l);
    var noise := Min(n.cfg.consumeBeforePunch, n.initialNoiseRemaining);
    assert NoiseDue(n, c) == Some((AfterMeasurement, noise)) && c in l.observed;
    hide OpenPeer, ReadAll, NoiseAgrees, FirstPeers, NoiseDue;
    FirstPeerAgrees(n, o.state, c, noise, l, first);
  }

  lemma OpenPeerAgrees(n: NatState, key: Key, l: Ledger, first: nat)
    requires NoiseAgrees(n, l, first) && !OpenPeer(n, key).raised
    ensures OutAgrees(n, OpenPeer(n, key), l, first)
  {
    var o, c := OpenPeer(n, key), key.client;
    if Count(n.peerMappingCounts, c) == 0 && Count(n.measurements, c) > 0 {
      hide OutAgrees, OpenPeer, NoiseAgrees;
      OpenFirstPeerAgrees(n, key, l, first);
    } else {
      OpenPeerFields(n, key);
      ReadOtherPeer(n, key, l);
      assert SweepDue(n, c) > 0 ==> Count(n.peerMappingCounts, c) > 0;
      hide OpenPeer, ReadAll, NoiseAgrees, FirstPeers, NoiseDue;
      OtherPeerAgrees(n, o.state, c, SweepDue(n, c), l, ReadAll(l, n.cfg.side, o.rows, n.cfg.consumeBeforePunch), first);
    }
  }

  // ----- whole operations -----

  ghost predicate SameCounters(n: NatState, n': NatState) {
    && n'.cfg == n.cfg && n'.measurements == n.measurements && n'.peerMappingCounts == n.peerMappingCounts
    && n'.initialNoiseRemaining == n.initialNoiseRemaining && n'.sweepNoiseRemaining == n.sweepNoiseRemaining
  }

  lemma QuietAgrees(n: NatState, o: Out, l: Ledger, first: nat)
    requires NoiseAgrees(n, l, first) && SameCounters(n, o.state)
    requires forall row | row in o.rows :: NoNoise(row, n.cfg.side)
    ensures OutAgrees(n, o, l, first)
  {
    NoiseUntouched(l, n.cfg.side, o.rows, n.cfg.consumeBeforePunch);
    NoFirstPeers(o.rows, n.cfg.side);
    hide NoiseAgrees, SameNoise;
    NoiseFrame(n, l, o.state, ReadAll(l, n.cfg.side, o.rows, n.cfg.consumeBeforePunch), first);
  }

  lemma SequenceAgrees(n: NatState, o1: Out, o2: Out, l: Ledger, first: nat)
    requires o1.state.cfg == n.cfg
    requires OutAgrees(o1.state, o2, ReadAll(l, n.cfg.side, o1.rows, n.cfg.consumeBeforePunch), first + FirstPeers(o1.rows, n.cfg.side))
    ensures OutAgrees(n, Out(o2.state, o1.rows + o2.rows, o2.raised), l, first)
  {
    hide NoiseAgrees;
    ReadAllSplits(l, n.cfg.side, o1.rows, o2.rows, n.cfg.consumeBeforePunch);
    FirstPeersSplits(o1.rows, o2.rows, n.cfg.side);
  }

  lemma MappingForIsQuiet(n: NatState, key: Key)
    ensures SameCounters(n, MappingFor(n, key).state)
    ensures forall row | row in MappingFor(n, key).rows :: row.MappingCreated?
    ensures MappingFor(n, key).raised ==> MappingFor(n, key).state.exhausted
  {
    hide Allocate1;
  }

  lemma MapAndQueueIsQuiet(n: NatState, key: Key, data: Bytes)
    ensures SameCounters(n, MapAndQueue(n, key, data).state)
    ensures forall row | row in MapAndQueue(n, key, data).rows :: row.MappingCreated? || row.QueueRejected?
    ensures MapAndQueue(n, key, data).raised ==> MapAndQueue(n, key, data).state.exhausted
  {
    hide MappingFor;
    MappingForIsQuiet(n, key);
    MappingForHolds(n, key);
  }

  lemma TranslateOutboundAgrees(n: NatState, client: Endpoint, destination: Endpoint, data: Bytes, l: Ledger, first: nat)
    requires NoiseAgrees(n, l, first) && !TranslateOutbound(n, client, destination, data).raised
    ensures OutAgrees(n, TranslateOutbound(n, client, destination, data), l, first)
  {
    hide NoiseAgrees, MapAndQueue, ReadAll, FirstPeers, OutAgrees;
    var key := Key(client, destination);
    var start := if key in n.mappings then Out(n, [], false) else OpenPeer(n, key);
    if key in n.mappings {
      QuietAgrees(n, start, l, first);
    } else {
      OpenPeerAgrees(n, key, l, first);
      OpenPeerFields(n, key);
    }
    hide OpenPeer;
    ThenMapAndQueue(n, start, key, data, l, first);
  }

  lemma ThenMapAndQueue(n: NatState, start: Out, key: Key, data: Bytes, l: Ledger, first: nat)
    requires OutAgrees(n, start, l, first) && start.state.cfg == n.cfg && !MapAndQueue(start.state, key, data).raised
    ensures var rest := MapAndQueue(start.state, key, data);
      OutAgrees(n, Out(rest.state, start.rows + rest.rows, rest.raised), l, first)
  {
    hide NoiseAgrees, MapAndQueue, ReadAll, FirstPeers;
    MapAndQueueIsQuiet(start.state, key, data);
    var rest := MapAndQueue(start.state, key, data);
    QuietAgrees(start.state, rest, ReadAll(l, n.cfg.side, start.rows, n.cfg.consumeBeforePunch), first + FirstPeers(start.rows, n.cfg.side));
    SequenceAgrees(n, start, rest, l, first);
  }

  lemma HandleStunRequestAgrees(n: NatState, client: Endpoint, observer: Endpoint, l: Ledger, first: nat)
    requires NoiseAgrees(n, l, first) && !HandleStunRequest(n, client, observer).raised
    ensures OutAgrees(n, HandleStunRequest(n, client, observer), l, first)
  {
    hide MappingFor;
    var mid, key := CountMeasurement(n, client), Key(client, observer);
    var mapped, o := MappingFor(mid, key), HandleStunRequest(n, client, observer);
    MappingForIsQuiet(mid, key);
    MappingForHolds(mid, key);
    var last := o.rows[|o.rows| - 1];
    assert o.rows == mapped.rows + [last];
    ReadAllSplits(l, n.cfg.side, mapped.rows, [last], n.cfg.consumeBeforePunch);
    FirstPeersSplits(mapped.rows, [last], n.cfg.side);
    NoiseUntouched(l, n.cfg.side, mapped.rows, n.cfg.consumeBeforePunch);
    NoFirstPeers(mapped.rows, n.cfg.side);
    var l1 := ReadAll(l, n.cfg.side, mapped.rows, n.cfg.consumeBeforePunch);
    assert last.StunObserved? && last.client == client && last.side == n.cfg.side;
    hide ReadAll, SameNoise, NoiseAgrees;
    NoiseFrame(n, l, n, l1, first);
    ObservedAgrees(n, o.state, client, l1, Read(l1, n.cfg.side, last, n.cfg.consumeBeforePunch), first);
  }

  lemma ObservedAgrees(n: NatState, n': NatState, client: Endpoint, l: Ledger, l': Ledger, first: nat)
    requires NoiseAgrees(n, l, first) && n'.cfg == n.cfg
    requires n'.measurements == n.measurements[client := Count(n.measurements, client) + 1]
    requires n'.peerMappingCounts == n.peerMappingCounts
    requires n'.initialNoiseRemaining == n.initialNoiseRemaining && n'.sweepNoiseRemaining == n.sweepNoiseRemaining
    requires l' == l.(last := l.last + 1, observed := l.observed[client := l.last + 1])
    ensures NoiseAgrees(n', l', first)
  {
    assert ClientsAgree(n', l') by { hide BudgetsAgree, VerdictsAgree; }
    hide ClientsAgree;
  }

  lemma CaptureEgressAgrees(n: NatState, client: Endpoint, destination: Endpoint, data: Bytes, l: Ledger, first: nat)
    requires NoiseAgrees(n, l, first) && !CaptureEgress(n, client, destination, data).raised
    ensures OutAgrees(n, CaptureEgress(n, client, destination, data), l, first)
  {
    var captured := Out(RecordClient(n, client), [EgressCaptured(n.cfg.side, client, destination, |data|)], false);
    hide NoiseAgrees, ReadAll, FirstPeers, TranslateOutbound, HandleStunRequest, ParseBindingRequest;
    QuietAgrees(n, captured, l, first);
    var l1, f1 := ReadAll(l, n.cfg.side, captured.rows, n.cfg.consumeBeforePunch), first + FirstPeers(captured.rows, n.cfg.side);
    var rest :=
      if destination in n.cfg.observers then
        if ParseBindingRequest(data).Some? then HandleStunRequest(captured.state, client, destination)
        else Out(captured.state, [], false)
      else TranslateOutbound(captured.state, client, destination, data);
    assert NoiseAgrees(captured.state, l1, f1);
    assert CaptureEgress(n, client, destination, data) == Out(rest.state, captured.rows + rest.rows, rest.raised);
    hide OutAgrees, CaptureEgress, RecordClient;
    if destination !in n.cfg.observers {
      TranslateOutboundAgrees(captured.state, client, destination, data, l1, f1);
    } else if ParseBindingRequest(data).Some? {
      HandleStunRequestAgrees(captured.state, client, destination, l1, f1);
    } else {
      QuietAgrees(captured.state, rest, l1, f1);
    }
    SequenceAgrees(n, captured, rest, l, first);
  }

  // ----- the table of bound endpoints -----

  /** The checker's table is the simulator's table of reported mappings, and no endpoint ever changed hands. */
  ghost predicate TableAgrees(n: NatState, l: Ledger) {
    && (forall k | k in n.mappings && n.mappings[k].reported ::
          MappingEndpoint(n, k) in l.table && l.table[MappingEndpoint(n, k)] == k.destination)
    && (forall e | e in l.table :: exists k :: k in n.mappings && n.mappings[k].reported && MappingEndpoint(n, k) == e)
    && Reassigned !in l.errors
  }

  lemma TableContinues(n: NatState, n': NatState, l: Ledger, l': Ledger)
    requires Bound(n) && Continues(n, n') && NoNewReports(n, n')
    requires TableAgrees(n, l) && SameBinds(l, l')
    ensures TableAgrees(n', l')
  {
    hide AllocContinues;
    assert forall k | k in n.mappings && n.mappings[k].reported :: MappingEndpoint(n', k) == MappingEndpoint(n, k);
  }

  /** An endpoint about to be reported has not been reported for another mapping. */
  lemma ReportedEndpointIsNew(n: NatState, key: Key, l: Ledger)
    requires Indexed(n) && Bound(n) && TableAgrees(n, l)
    requires key in n.mappings && n.mappings[key].bound && !n.mappings[key].reported
    ensures MappingEndpoint(n, key) !in l.table
  {
  }

  lemma ReportAgrees(n: NatState, key: Key, n': NatState, l: Ledger)
    requires Indexed(n) && Bound(n) && TableAgrees(n, l)
    requires key in n.mappings && n.mappings[key].bound && !n.mappings[key].reported
    requires n' == n.(mappings := n.mappings[key := n.mappings[key].(reported := true)])
    ensures TableAgrees(n', Read(l, n.cfg.side, MappingBound(n.cfg.side, key, MappingEndpoint(n, key)), n.cfg.consumeBeforePunch))
  {
    ReportedEndpointIsNew(n, key, l);
    hide Indexed, Bound;
    var endpoint := MappingEndpoint(n, key);
    var l' := Read(l, n.cfg.side, MappingBound(n.cfg.side, key, endpoint), n.cfg.consumeBeforePunch);
    assert l'.table == l.table[endpoint := key.destination] && Reassigned !in l'.errors;
    hide Read;
    assert forall k | k in n.mappings :: k in n'.mappings && MappingEndpoint(n', k) == MappingEndpoint(n, k);
    forall e | e in l'.table ensures exists k :: k in n'.mappings && n'.mappings[k].reported && MappingEndpoint(n', k) == e {
      if e == endpoint {
        assert n'.mappings[key].reported;
      } else {
        var k :| k in n.mappings && n.mappings[k].reported && MappingEndpoint(n, k) == e;
        assert n'.mappings[k].reported;
      }
    }
  }

  // ----- rows an operation may write -----

  ghost predicate OwnRows(rows: seq<Row>, side: Side) {
    forall row | row in rows :: !row.ReciprocalPair? && !row.MappingBound? && row.side == side
  }

  lemma {:induction false} ConsumeNoiseRows(n: NatState, client: Endpoint, count: nat, stage: Stage, prior: nat)
    ensures OwnRows(ConsumeNoise(n, client, count, stage, prior).rows, n.cfg.side)
    decreases count
  {
    if count != 0 {
      hide Allocate1;
      assert TakeNoise(n).cfg == n.cfg;
      ConsumeNoiseRows(TakeNoise(n), client, count - 1, stage, prior);
    }
  }

  lemma {:induction false} ConsumeNoiseRaise(n: NatState, client: Endpoint, count: nat, stage: Stage, prior: nat)
    ensures var o := ConsumeNoise(n, client, count, stage, prior); o.state.exhausted <==> n.exhausted || o.raised
    decreases count
  {
    if count != 0 {
      hide Allocate1;
      ConsumeNoiseRaise(TakeNoise(n), client, count - 1, stage, prior);
    }
  }

  /** Only a failed allocation raises, and it is remembered. */
  ghost predicate RaiseIsExhaustion(n: NatState, o: Out) {
    o.state.exhausted <==> n.exhausted || o.raised
  }

  lemma OpenPeerRows(n: NatState, key: Key)
    ensures OwnRows(OpenPeer(n, key).rows, n.cfg.side) && RaiseIsExhaustion(n, OpenPeer(n, key))
    ensures OpenPeer(n, key).state.cfg == n.cfg
  {
    match NoiseDue(n, key.client)
    case None =>
    case Some((stage, noise)) =>
      var prior := Count(n.peerMappingCounts, key.client);
      ConsumeNoiseRows(n, key.client, noise, stage, prior);
      ConsumeNoiseRaise(n, key.client, noise, stage, prior);
      ConsumeNoiseBudgets(n, key.client, noise, stage, prior);
      hide ConsumeNoise;
  }

  lemma MappingForRows(n: NatState, key: Key)
    ensures OwnRows(MappingFor(n, key).rows, n.cfg.side) && RaiseIsExhaustion(n, MappingFor(n, key))
    ensures MappingFor(n, key).state.cfg == n.cfg
  {
    hide Allocate1;
  }

  lemma MapAndQueueRows(n: NatState, key: Key, data: Bytes)
    ensures OwnRows(MapAndQueue(n, key, data).rows, n.cfg.side) && RaiseIsExhaustion(n, MapAndQueue(n, key, data))
  {
    hide MappingFor;
    MappingForRows(n, key);
    MappingForHolds(n, key);
  }

  lemma TranslateOutboundRows(n: NatState, client: Endpoint, destination: Endpoint, data: Bytes)
    ensures var o := TranslateOutbound(n, client, destination, data); OwnRows(o.rows, n.cfg.side) && RaiseIsExhaustion(n, o)
  {
    hide OpenPeer, MapAndQueue;
    var key := Key(client, destination);
    OpenPeerRows(n, key);
    var start := if key in n.mappings then Out(n, [], false) else OpenPeer(n, key);
    MapAndQueueRows(start.state, key, data);
  }

  lemma HandleStunRequestRows(n: NatState, client: Endpoint, observer: Endpoint)
    ensures var o := HandleStunRequest(n, client, observer); OwnRows(o.rows, n.cfg.side) && RaiseIsExhaustion(n, o)
  {
    hide MappingFor;
    MappingForRows(CountMeasurement(n, client), Key(client, observer));
  }

  lemma CaptureEgressRows(n: NatState, client: Endpoint, destination: Endpoint, data: Bytes)
    ensures var o := CaptureEgress(n, client, destination, data); OwnRows(o.rows, n.cfg.side) && RaiseIsExhaustion(n, o)
  {
    hide TranslateOutbound, HandleStunRequest, ParseBindingRequest;
    TranslateOutboundRows(RecordClient(n, client), client, destination, data);
    HandleStunRequestRows(RecordClient(n, client), client, destination);
  }

  // ----- the data plane -----

  /** A row that neither half of the evidence reads. */
  ghost predicate CalmRow(row: Row) {
    row.DataPlane? || row.Unmapped? || row.ReciprocalPair?
  }

  ghost predicate CalmNat(n: NatState, n': NatState) {
    && SameCounters(n, n') && n'.exhausted == n.exhausted
    && n'.mappings.Keys == n.mappings.Keys
    && forall k | k in n.mappings ::
         n'.mappings[k].reported == n.mappings[k].reported && n'.mappings[k].port == n.mappings[k].port
  }

  /** Moving datagrams about changes nothing that the evidence is about. */
  ghost predicate Calm(w: World, w': World) {
    && CalmNat(w.a, w'.a) && CalmNat(w.b, w'.b)
    && w.trace <= w'.trace
    && forall row | row in w'.trace[|w.trace|..] :: CalmRow(row)
  }

  lemma CalmTransitive(w: World, w': World, w'': World)
    requires Calm(w, w') && Calm(w', w'')
    ensures Calm(w, w'')
  {
    assert w''.trace[|w.trace|..] == w'.trace[|w.trace|..] + w''.trace[|w'.trace|..];
  }

  lemma EmitIsCalm(w: World, w': World, rows: seq<Row>)
    requires w'.a == w.a && w'.b == w.b && w'.trace == w.trace + rows
    requires forall row | row in rows :: CalmRow(row)
    ensures Calm(w, w')
  {
  }

  lemma DeliverIsCalm(w: World, f: Flight)
    requires PeersKnown(w) && f.key in Of(w, f.receiver).mappings
    ensures Calm(w, Deliver(w, f)) && Deliver(w, f).a == w.a && Deliver(w, f).b == w.b
  {
    EmitIsCalm(w, Deliver(w, f), [DataPlane(f.receiver, Delivered)]);
  }

  lemma ApplyFaultsIsCalm(w: World, f: Flight, faults: Faults)
    requires PeersKnown(w) && f.key in Of(w, f.receiver).mappings
    ensures Calm(w, ApplyFaults(w, f, faults))
  {
    hide PeersKnown, Calm, Deliver;
    if faults.lost {
      EmitIsCalm(w, ApplyFaults(w, f, faults), [DataPlane(f.receiver, LossDrop)]);
    } else if faults.late {
      EmitIsCalm(w, ApplyFaults(w, f, faults),
                 [DataPlane(f.receiver, Delayed)] + if faults.twice then [DataPlane(f.receiver, Duplicated)] else []);
    } else {
      var w1 := Emit(w, [DataPlane(f.receiver, Admitted)]);
      EmitIsCalm(w, w1, [DataPlane(f.receiver, Admitted)]);
      DeliverOnwards(w, w1, f);
      var once := Deliver(w1, f);
      if faults.twice {
        var w2 := Emit(once, [DataPlane(f.receiver, Duplicated)]);
        EmitIsCalm(once, w2, [DataPlane(f.receiver, Duplicated)]);
        CalmTransitive(w, once, w2);
        DeliverOnwards(w, w2, f.(copy := 1));
      }
    }
  }

  lemma DeliverOnwards(w: World, w1: World, f: Flight)
    requires PeersKnown(w) && f.key in Of(w, f.receiver).mappings
    requires Calm(w, w1) && w1.a == w.a && w1.b == w.b
    ensures PeersKnown(w1) && Calm(w, Deliver(w1, f)) && Deliver(w1, f).a == w.a && Deliver(w1, f).b == w.b
  {
    assert PeersKnown(w1);
    hide PeersKnown, Calm;
    DeliverIsCalm(w1, f);
    CalmTransitive(w, w1, Deliver(w1, f));
  }

  lemma HandlePublicDatagramIsCalm(w: World, side: Side, port: int, data: Bytes, source: Endpoint, via: Option<Key>, g: Gates)
    requires PeersKnown(w) && OwnerOfClient(w, source).None?
    ensures Calm(w, HandlePublicDatagram(w, side, port, data, source, via, g))
  {
    var n := Of(w, side);
    if port in n.mappingByPort && InboundAllowed(w, side, n.mappingByPort[port], source) {
      var f := Flight(side, n.mappingByPort[port], data, source, via, 0);
      var faults := DrawFaults(n);
      var w1 := MoveCursor(w, side, faults.cursor);
      assert Calm(w, w1);
      hide DrawFaults, Calm, ApplyFaults;
      ApplyFaultsIsCalm(w1, f, faults);
      CalmTransitive(w, w1, ApplyFaults(w1, f, faults));
    } else if port in n.mappingByPort {
      EmitIsCalm(w, Emit(w, [DataPlane(side, FilterDrop)]), [DataPlane(side, FilterDrop)]);
    } else {
      EmitIsCalm(w, w, []);
    }
  }

  lemma RouteTranslatedIsCalm(w: World, side: Side, key: Key, d: Datagram, g: Gates)
    requires WorldInv(w) && key in Of(w, side).mappings && Of(w, side).mappings[key].reported
    ensures PeersKnown(w) && Calm(w, RouteTranslated(w, side, key, d, g))
  {
    WorldInvKnows(w);
    InvBound(Of(w, side));
    BoundIsNoClient(w, side, key);
    hide WorldInv, PeersKnown, Calm;
    var n, peer, w' := Of(w, side), Of(w, side.Other()), RouteTranslated(w, side, key, d, g);
    if Closed(n.cfg, GateOpen(g, side)) {
      EmitIsCalm(w, w', [DataPlane(side, if n.cfg.blockDirect then BlackholeDrop else GateDrop)]);
    } else if !OwnsPublicEndpoint(peer, d.destination) {
      EmitIsCalm(w, w', [Unmapped(side, MappingEndpoint(n, key), d.destination, |d.data|)]);
    } else if Closed(peer.cfg, GateOpen(g, side.Other())) {
      EmitIsCalm(w, w', [DataPlane(side.Other(), ReceiverDrop)]);
    } else {
      HandlePublicDatagramIsCalm(w, side.Other(), d.destination.port, d.data, MappingEndpoint(n, key), Some(key), g);
    }
  }

  // ----- the evidence of a run -----

  function LedgerOf(n: NatState, trace: seq<Row>): Ledger {
    ReadAll(EMPTY_LEDGER, n.cfg.side, trace, n.cfg.consumeBeforePunch)
  }

  ghost predicate SideOk(n: NatState, trace: seq<Row>) {
    && TableAgrees(n, LedgerOf(n, trace))
    && (!n.exhausted ==> NoiseAgrees(n, LedgerOf(n, trace), FirstPeers(trace, n.cfg.side)))
  }

  ghost predicate EvidenceOk(w: World) {
    && w.a.cfg.side == SideA && w.b.cfg.side == SideB
    && SideOk(w.a, w.trace) && SideOk(w.b, w.trace)
  }

  /** One NAT keeps its counters and reports while rows are written that do not concern it. */
  lemma QuietMove(n: NatState, n': NatState, trace: seq<Row>, rows: seq<Row>)
    requires SideOk(n, trace) && Bound(n) && Continues(n, n') && NoNewReports(n, n') && SameCounters(n, n')
    requires forall row | row in rows :: NoNoise(row, n.cfg.side) && NoBind(row, n.cfg.side)
    ensures SideOk(n', trace + rows)
  {
    var l, side, wanted := LedgerOf(n, trace), n.cfg.side, n.cfg.consumeBeforePunch;
    ReadAllSplits(EMPTY_LEDGER, side, trace, rows, wanted);
    FirstPeersSplits(trace, rows, side);
    NoFirstPeers(rows, side);
    NoiseUntouched(l, side, rows, wanted);
    BindsUntouched(l, side, rows, wanted);
    assert n.exhausted ==> n'.exhausted;
    hide NoiseAgrees, ReadAll, FirstPeers, SameNoise, SameBinds, Bound;
    TableContinues(n, n', l, LedgerOf(n', trace + rows));
    hide TableAgrees, Continues;
    if !n'.exhausted {
      NoiseFrame(n, l, n', LedgerOf(n', trace + rows), FirstPeers(trace, side));
    }
  }

  lemma LedgerExtends(n: NatState, n': NatState, trace: seq<Row>, rows: seq<Row>)
    requires n'.cfg == n.cfg
    ensures LedgerOf(n', trace + rows) == ReadAll(LedgerOf(n, trace), n.cfg.side, rows, n.cfg.consumeBeforePunch)
    ensures FirstPeers(trace + rows, n.cfg.side) == FirstPeers(trace, n.cfg.side) + FirstPeers(rows, n.cfg.side)
  {
    hide ReadAll, FirstPeers;
    ReadAllSplits(EMPTY_LEDGER, n.cfg.side, trace, rows, n.cfg.consumeBeforePunch);
    FirstPeersSplits(trace, rows, n.cfg.side);
  }

  lemma OwnBinds(l: Ledger, side: Side, rows: seq<Row>, wanted: nat)
    requires OwnRows(rows, side)
    ensures SameBinds(l, ReadAll(l, side, rows, wanted))
  {
    hide ReadAll, SameBinds;
    BindsUntouched(l, side, rows, wanted);
  }

  lemma ContinuesOptions(n: NatState, n': NatState)
    requires Continues(n, n')
    ensures n'.cfg == n.cfg && (n.exhausted ==> n'.exhausted)
  {
  }

  /** One NAT carries out an operation on the way in. */
  lemma OwnMove(n: NatState, o: Out, trace: seq<Row>)
    requires SideOk(n, trace) && Bound(n) && Continues(n, o.state) && NoNewReports(n, o.state)
    requires OwnRows(o.rows, n.cfg.side)
    requires !o.state.exhausted ==> OutAgrees(n, o, LedgerOf(n, trace), FirstPeers(trace, n.cfg.side))
    ensures SideOk(o.state, trace + o.rows)
  {
    hide NoiseAgrees, ReadAll, FirstPeers, SameBinds, Bound, OwnRows, NoNewReports, TableAgrees, LedgerOf, Continues;
    ContinuesOptions(n, o.state);
    LedgerExtends(n, o.state, trace, o.rows);
    OwnBinds(LedgerOf(n, trace), n.cfg.side, o.rows, n.cfg.consumeBeforePunch);
    TableContinues(n, o.state, LedgerOf(n, trace), LedgerOf(o.state, trace + o.rows));
  }

  lemma OthersOwnRows(rows: seq<Row>, side: Side)
    requires OwnRows(rows, side)
    ensures forall row | row in rows :: NoNoise(row, side.Other()) && NoBind(row, side.Other())
  {
  }

  lemma IngressEvidence(w: World, side: Side, o: Out)
    requires WorldInv(w) && EvidenceOk(w)
    requires Continues(Of(w, side), o.state) && NoNewReports(Of(w, side), o.state)
    requires OwnRows(o.rows, side)
    requires !o.state.exhausted ==> OutAgrees(Of(w, side), o, LedgerOf(Of(w, side), w.trace), FirstPeers(w.trace, side))
    ensures EvidenceOk(Apply(w, side, o))
  {
    InvBound(Of(w, side));
    InvBound(Of(w, side.Other()));
    ContinuesReflexive(Of(w, side.Other()));
    OthersOwnRows(o.rows, side);
    hide WorldInv, SideOk, Indexed, Bound, OwnRows, OutAgrees, NatInv, FirstPeers, LedgerOf;
    OwnMove(Of(w, side), o, w.trace);
    QuietMove(Of(w, side.Other()), Of(w, side.Other()), w.trace, o.rows);
    assert o.state.cfg == Of(w, side).cfg;
    hide Continues, NoNewReports;
  }

  /** Both NATs keep their counters and reports, and the new rows concern neither. */
  lemma CalmEvidence(w: World, w': World)
    requires WorldInv(w) && EvidenceOk(w) && Calm(w, w')
    requires Continues(w.a, w'.a) && Continues(w.b, w'.b)
    ensures EvidenceOk(w')
  {
    InvBound(w.a);
    InvBound(w.b);
    var rows := w'.trace[|w.trace|..];
    assert w'.trace == w.trace + rows;
    assert NoNewReports(w.a, w'.a) && NoNewReports(w.b, w'.b);
    hide WorldInv, SideOk, Indexed, Bound, Continues;
    QuietMove(w.a, w'.a, w.trace, rows);
    QuietMove(w.b, w'.b, w.trace, rows);
  }
}
