/**
 The replay program itself: one pass over the trace that updates its dictionaries row by row. The entries of
 every dictionary that belong to one NAT form one `Notes` object.
 */
module EvidenceReplay {
  import opened NatModel
  import opened NatWorld
  import opened WorldSafety
  import opened Evidence
  import opened EvidenceAgreement
  import opened EvidenceRuns
  import opened EvidenceFindings
  import opened PairRecount
  import opened Wrappers

  class Notes {
    const side: Side
    const wanted: nat
    var last: nat
    var captures: nat
    var captureBytes: nat
    var unbound: nat
    var rejected: nat
    var observed: map<Endpoint, nat>
    var initialNoise: map<Endpoint, nat>
    var firstNoise: map<Endpoint, nat>
    var firstPeer: set<Endpoint>
    var noiseInitial: nat
    var noiseSweep: nat
    var mappings: map<Endpoint, Endpoint>
    var errors: set<Finding>

    function View(): Ledger
      reads this
    {
      Ledger(last, captures, captureBytes, unbound, rejected, observed, initialNoise, firstNoise, firstPeer,
             noiseInitial, noiseSweep, mappings, errors)
    }

    constructor (side: Side, wanted: nat)
      ensures this.side == side && this.wanted == wanted && View() == EMPTY_LEDGER
    {
      this.side, this.wanted := side, wanted;
      last, captures, captureBytes, unbound, rejected, noiseInitial, noiseSweep := 0, 0, 0, 0, 0, 0, 0;
      observed, initialNoise, firstNoise, firstPeer, mappings, errors := map[], map[], map[], {}, map[], {};
    }

    method InitialNoiseRow(row: Row)
      requires row.MappingConsumed? && row.side == side && row.stage.AfterMeasurement?
      modifies this
      ensures View() == Read(old(View()), side, row, wanted)
    {
      assert errors + {} == errors;
      last := last + 1;
      noiseInitial := noiseInitial + 1;
      if row.client !in observed || row.client in firstPeer {
        errors := errors + {OutsideWindow};
      }
      initialNoise := initialNoise[row.client := Count(initialNoise, row.client) + 1];
      if row.client !in firstNoise {
        firstNoise := firstNoise[row.client := last];
      }
    }

    method SweepNoiseRow(row: Row)
      requires row.MappingConsumed? && row.side == side && row.stage.DuringSweep?
      modifies this
      ensures View() == Read(old(View()), side, row, wanted)
    {
      assert errors + {} == errors;
      last := last + 1;
      noiseSweep := noiseSweep + 1;
      if row.client !in firstPeer || row.prior == 0 {
        errors := errors + {NotDuringSweep};
      }
    }

    method StartedRow(row: Row)
      requires row.PeerStarted? && row.side == side
      modifies this
      ensures View() == Read(old(View()), side, row, wanted)
    {
      last := last + 1;
      if row.prior == 0 {
        firstPeer := firstPeer + {row.client};
        if row.client in observed {
          if Count(initialNoise, row.client) != wanted {
            errors := errors + {CountMismatch};
          }
          if wanted > 0 && Count(firstNoise, row.client) <= observed[row.client] {
            errors := errors + {PrecedesMeasurement};
          }
        }
      }
    }

    method OtherRow(row: Row)
      requires !row.MappingConsumed? && !row.PeerStarted?
      modifies this
      ensures View() == Read(old(View()), side, row, wanted)
    {
      last := last + 1;
      match row
      case EgressCaptured(s, _, _, bytes) =>
        if s == side { captures, captureBytes := captures + 1, captureBytes + bytes; }
      case QueueRejected(s, _) => if s == side { rejected := rejected + 1; }
      case StunObserved(s, client, _, _, _) => if s == side { observed := observed[client := last]; }
      case MappingBound(s, key, endpoint) =>
        if s == side {
          if endpoint in mappings && mappings[endpoint] != key.destination {
            errors := errors + {Reassigned};
          }
          mappings := mappings[endpoint := key.destination];
        }
      case Unmapped(s, _, _, _) => if s == side { unbound := unbound + 1; }
      case _ =>
    }

    method ReadRow(row: Row)
      modifies this
      ensures View() == Read(old(View()), side, row, wanted)
    {
      hide Read;
      if row.MappingConsumed? && row.side == side {
        if row.stage.AfterMeasurement? {
          InitialNoiseRow(row);
        } else {
          SweepNoiseRow(row);
        }
      } else if row.PeerStarted? && row.side == side {
        StartedRow(row);
      } else if row.MappingConsumed? || row.PeerStarted? {
        last := last + 1;
        OthersRow(old(View()), side, row, wanted);
      } else {
        OtherRow(row);
      }
    }
  }

  lemma OthersRow(l: Ledger, side: Side, row: Row, wanted: nat)
    requires (row.MappingConsumed? || row.PeerStarted?) && row.side != side
    ensures Read(l, side, row, wanted) == l.(last := l.last + 1)
  {
  }

  lemma ReadAllExtends(l: Ledger, side: Side, rows: seq<Row>, row: Row, wanted: nat)
    ensures ReadAll(l, side, rows + [row], wanted) == Read(ReadAll(l, side, rows, wanted), side, row, wanted)
  {
    ReadAllSplits(l, side, rows, [row], wanted);
  }

  // ----- the findings after the last row -----

  /** The counters that a node's shim left behind, with the gateway they were counted for. */
  datatype Counters = Counters(genuine: bool, datagrams: nat, bytes: nat, gateway: int)

  /** What the round recorded beside the rows: the gateway a NAT announced, and its node's counters if they can be read. */
  datatype Aside = Aside(gateway: Option<int>, counters: Option<Counters>)

  /** The noise the round asked for. */
  datatype Wanted = Wanted(initial: nat, sweepEvery: nat, sweepCount: nat, sweepLimit: nat)

  datatype Closing =
    | CaptureMissing | CountersMissing | LossOrDuplicate
    | InitialNotExercised | SweepNotExercised | SweepLimitExceeded | Rejection

  predicate Readable(x: Aside) {
    x.counters.Some? && x.counters.value.genuine && x.gateway == Some(x.counters.value.gateway)
  }

  predicate Raises(l: Ledger, x: Aside, wanted: Wanted, finding: Closing) {
    match finding
    case CaptureMissing => x.gateway.None? || l.captures == 0
    case CountersMissing => !Readable(x)
    case LossOrDuplicate => Readable(x) && (x.counters.value.datagrams, x.counters.value.bytes) != (l.captures, l.captureBytes)
    case InitialNotExercised => wanted.initial > 0 && l.noiseInitial == 0
    case SweepNotExercised => wanted.sweepEvery > 0 && wanted.sweepCount > 0 && l.noiseSweep == 0
    case SweepLimitExceeded => l.noiseSweep > wanted.sweepLimit
    case Rejection => l.rejected > 0
  }

  const CLOSING: set<Closing> :=
    {CaptureMissing, CountersMissing, LossOrDuplicate, InitialNotExercised, SweepNotExercised, SweepLimitExceeded, Rejection}

  /** What is wrong with a ledger after the last row. */
  function ClosingFindings(l: Ledger, x: Aside, wanted: Wanted): set<Closing> {
    set f | f in CLOSING && Raises(l, x, wanted, f)
  }

  /** A closing finding, in terms of the rows and of what was recorded beside them. */
  ghost predicate Lacks(t: seq<Row>, side: Side, x: Aside, wanted: Wanted, finding: Closing) {
    var captures := |Places(t, |t|, side, Capture)|;
    var readable := x.counters.Some? && x.counters.value.genuine && x.gateway == Some(x.counters.value.gateway);
    match finding
    case CaptureMissing => x.gateway == None || captures == 0
    case CountersMissing => !readable
    case LossOrDuplicate =>
      readable && !(x.counters.value.datagrams == captures && x.counters.value.bytes == CapturedBytes(t, side, |t|))
    case InitialNotExercised => wanted.initial != 0 && forall i | 0 <= i < |t| :: !Is(t[i], side, NoiseAt(AfterMeasurement))
    case SweepNotExercised =>
      wanted.sweepEvery != 0 && wanted.sweepCount != 0 && forall i | 0 <= i < |t| :: !Is(t[i], side, NoiseAt(DuringSweep))
    case SweepLimitExceeded => |Places(t, |t|, side, NoiseAt(DuringSweep))| >= wanted.sweepLimit + 1
    case Rejection => exists i :: 0 <= i < |t| && Is(t[i], side, QueueFull)
  }

  lemma NoPlaces(t: seq<Row>, side: Side, kind: Kind)
    ensures |Places(t, |t|, side, kind)| == 0 <==> forall i | 0 <= i < |t| :: !Is(t[i], side, kind)
  {
    hide Is;
    if i :| 0 <= i < |t| && Is(t[i], side, kind) {
      assert i in Places(t, |t|, side, kind);
    }
  }

  /** Each closing finding is made exactly when that is lacking. */
  lemma ClosingMeans(t: seq<Row>, side: Side, x: Aside, wanted: Wanted, finding: Closing)
    ensures var l := ReadAll(EMPTY_LEDGER, side, t, wanted.initial);
      finding in ClosingFindings(l, x, wanted) <==> Lacks(t, side, x, wanted, finding)
  {
    assert t[..|t|] == t;
    CountersAreCounts(t, side, wanted.initial, |t|);
    NoPlaces(t, side, NoiseAt(AfterMeasurement));
    NoPlaces(t, side, NoiseAt(DuringSweep));
    NoPlaces(t, side, QueueFull);
    assert finding in CLOSING;
    hide ReadAll, Places, Is;
  }

  /** Nothing is found and nothing is lacking. */
  ghost predicate Sound(t: seq<Row>, side: Side, x: Aside, wanted: Wanted) {
    && (forall i, finding | 0 <= i < |t| :: !Happens(t, side, wanted.initial, finding, i))
    && (forall finding :: !Lacks(t, side, x, wanted, finding))
  }

  lemma SoundIff(t: seq<Row>, side: Side, x: Aside, wanted: Wanted)
    ensures var l := ReadAll(EMPTY_LEDGER, side, t, wanted.initial);
      l.errors == {} && ClosingFindings(l, x, wanted) == {} <==> Sound(t, side, x, wanted)
  {
    assert t[..|t|] == t;
    FindingsHappen(t, side, wanted.initial, |t|);
    forall finding ensures finding in ClosingFindings(ReadAll(EMPTY_LEDGER, side, t, wanted.initial), x, wanted)
                           <==> Lacks(t, side, x, wanted, finding) {
      ClosingMeans(t, side, x, wanted, finding);
    }
    hide ReadAll, ClosingFindings, Lacks, Happens;
    var l := ReadAll(EMPTY_LEDGER, side, t, wanted.initial);
    assert l == After(t, side, wanted.initial, |t|);
    if Sound(t, side, x, wanted) {
      assert forall finding :: finding !in l.errors;
      assert forall finding :: finding !in ClosingFindings(l, x, wanted);
    } else if i, finding :| 0 <= i < |t| && Happens(t, side, wanted.initial, finding, i) {
      assert HappensBefore(t, side, wanted.initial, finding, |t|);
    }
  }

  method Close(l: Ledger, x: Aside, wanted: Wanted) returns (findings: set<Closing>)
    ensures findings == ClosingFindings(l, x, wanted)
  {
    findings := {};
    if x.gateway.None? || l.captures == 0 { findings := findings + {CaptureMissing}; }
    if !Readable(x) {
      findings := findings + {CountersMissing};
    } else if x.counters.value.datagrams != l.captures || x.counters.value.bytes != l.captureBytes {
      findings := findings + {LossOrDuplicate};
    }
    if wanted.initial > 0 && l.noiseInitial == 0 { findings := findings + {InitialNotExercised}; }
    if wanted.sweepEvery > 0 && wanted.sweepCount > 0 && l.noiseSweep == 0 { findings := findings + {SweepNotExercised}; }
    if l.noiseSweep > wanted.sweepLimit { findings := findings + {SweepLimitExceeded}; }
    if l.rejected > 0 { findings := findings + {Rejection}; }
  }

  lemma PairsAre(a: Ledger, b: Ledger)
    ensures RecountedPairs(a, b) == set e | e in a.table && a.table[e] in b.table && b.table[a.table[e]] == e
  {
  }

  /** What the replay reports: both ledgers, the count of pairs, and whether the round is valid evidence. */
  datatype Summary = Summary(a: Ledger, b: Ledger, closing: set<Closing>, pairs: nat, valid: bool)

  /** The whole replay; the pairs are those of A's endpoints whose destination points back. */
  method Summarize(trace: seq<Row>, asideA: Aside, asideB: Aside, wantedA: Wanted, wantedB: Wanted) returns (r: Summary)
    ensures r.a == ReadAll(EMPTY_LEDGER, SideA, trace, wantedA.initial)
    ensures r.b == ReadAll(EMPTY_LEDGER, SideB, trace, wantedB.initial)
    ensures r.closing == ClosingFindings(r.a, asideA, wantedA) + ClosingFindings(r.b, asideB, wantedB)
    ensures r.pairs == |RecountedPairs(r.a, r.b)|
    ensures r.valid <==> Sound(trace, SideA, asideA, wantedA) && Sound(trace, SideB, asideB, wantedB)
  {
    var notesA := new Notes(SideA, wantedA.initial);
    var notesB := new Notes(SideB, wantedB.initial);
    var i := 0;
    while i < |trace|
      invariant 0 <= i <= |trace|
      invariant notesA.View() == ReadAll(EMPTY_LEDGER, SideA, trace[..i], wantedA.initial)
      invariant notesB.View() == ReadAll(EMPTY_LEDGER, SideB, trace[..i], wantedB.initial)
    {
      hide Read, ReadAll;
      notesA.ReadRow(trace[i]);
      notesB.ReadRow(trace[i]);
      assert trace[..i + 1] == trace[..i] + [trace[i]];
      ReadAllExtends(EMPTY_LEDGER, SideA, trace[..i], trace[i], wantedA.initial);
      ReadAllExtends(EMPTY_LEDGER, SideB, trace[..i], trace[i], wantedB.initial);
      i := i + 1;
    }
    assert trace[..|trace|] == trace;
    var a, b := notesA.View(), notesB.View();
    hide ClosingFindings, ReadAll, Sound, RecountedPairs;
    assert RecountedPairs(a, b) == set e | e in a.table && a.table[e] in b.table && b.table[a.table[e]] == e by { PairsAre(a, b); }
    var closingA := Close(a, asideA, wantedA);
    var closingB := Close(b, asideB, wantedB);
    var closing := closingA + closingB;
    var pairs := |set e | e in a.table && a.table[e] in b.table && b.table[a.table[e]] == e|;
    SoundIff(trace, SideA, asideA, wantedA);
    SoundIff(trace, SideB, asideB, wantedB);
    r := Summary(a, b, closing, pairs, a.errors == {} && b.errors == {} && closing == {});
  }

  /**
   On the trace of any run in which no allocation failed, the closing findings on noise say what they should: the sweep
   limit is never reported as exceeded, and initial noise is reported as missing exactly when no measured client of a NAT
   that was asked for it has opened a mapping.
   */
  lemma ClosingVerdicts(w: World, es: seq<Event>, w': World, side: Side, l: Ledger, x: Aside, wanted: Wanted)
    requires Start(w) && Runs(w, es, w') && !Of(w', side).exhausted
    requires var cfg := Of(w', side).cfg; wanted == Wanted(cfg.consumeBeforePunch, cfg.sweepEvery, cfg.sweepCount, cfg.sweepLimit)
    requires l == ReadAll(EMPTY_LEDGER, side, w'.trace, wanted.initial)
    ensures SweepLimitExceeded !in ClosingFindings(l, x, wanted)
    ensures InitialNotExercised in ClosingFindings(l, x, wanted) <==> wanted.initial > 0 && FirstPeers(w'.trace, side) == 0
  {
    hide ReadAll, Start, Runs, FirstPeers, NoiseRows;
    NoiseBudgetsInRuns(w, es, w', side);
    LedgerCountsNoise(EMPTY_LEDGER, side, w'.trace, wanted.initial);
    PaysSome(FirstPeers(w'.trace, side), wanted.initial);
  }

  lemma PaysSome(first: nat, consume: nat)
    ensures consume > 0 ==> (first * consume == 0 <==> first == 0)
  {
    if first > 0 && consume > 0 {
      assert first * consume == (first - 1) * consume + consume;
    }
  }

  /**
   End to end: on the trace of any run with every bound mapping reported, the program's pair count is the size of
   the set the simulator kept, and it is positive if a strict NAT ever delivered a routed datagram.
   */
  lemma SummaryMeetsSimulator(w: World, es: seq<Event>, w': World, a: Ledger, b: Ledger, pairs: nat)
    requires Start(w) && Runs(w, es, w') && AllReported(w')
    requires a == ReadAll(EMPTY_LEDGER, SideA, w'.trace, w'.a.cfg.consumeBeforePunch)
    requires b == ReadAll(EMPTY_LEDGER, SideB, w'.trace, w'.b.cfg.consumeBeforePunch)
    requires pairs == |RecountedPairs(a, b)|
    ensures pairs == |w'.pairs|
    ensures (exists d | d in w'.deliveries :: d.flight.via.Some? && Of(w', d.flight.receiver).cfg.strictFiltering) ==> pairs > 0
  {
    StartInv(w);
    StartEvidence(w);
    RunEvidence(w, es, w');
    RunRecount(w, es, w');
    hide WorldInv, Start, SideOk, ReadAll;
    assert Recounted(w') == RecountedPairs(a, b);
    if exists d | d in w'.deliveries :: d.flight.via.Some? && Of(w', d.flight.receiver).cfg.strictFiltering {
      var d :| d in w'.deliveries && d.flight.via.Some? && Of(w', d.flight.receiver).cfg.strictFiltering;
      StrictDirectLeavesAPair(w, es, w', d);
    }
  }
}
