/**
 The separate program that replays a trace and recomputes what the simulator kept. A `Ledger` is its knowledge
 of one NAT after some rows; `last` is the sequence number of the last row read.
 */
module Evidence {
  import opened NatModel

  datatype Finding = OutsideWindow | NotDuringSweep | CountMismatch | PrecedesMeasurement | Reassigned

  datatype Ledger = Ledger(
    last: nat,
    captures: nat, captureBytes: nat, unbound: nat, rejected: nat,
    observed: map<Endpoint, nat>,
    initialNoise: map<Endpoint, nat>,
    firstNoise: map<Endpoint, nat>,
    firstPeer: set<Endpoint>,
    noiseInitial: nat, noiseSweep: nat,
    table: map<Endpoint, Endpoint>,
    errors: set<Finding>)

  const EMPTY_LEDGER := Ledger(0, 0, 0, 0, 0, map[], map[], map[], {}, 0, 0, map[], {})

  function When(condition: bool, finding: Finding): set<Finding> {
    if condition then {finding} else {}
  }

  /** Read one row about NAT `side`, which was asked to inject `wanted` ports of initial noise per client. */
  function Read(l: Ledger, side: Side, row: Row, wanted: nat): Ledger {
    var seqNo := l.last + 1;
    var l := l.(last := seqNo);
    match row
    case EgressCaptured(s, _, _, bytes) =>
      if s == side then l.(captures := l.captures + 1, captureBytes := l.captureBytes + bytes) else l
    case QueueRejected(s, _) => if s == side then l.(rejected := l.rejected + 1) else l
    case StunObserved(s, client, _, _, _) => if s == side then l.(observed := l.observed[client := seqNo]) else l
    case MappingConsumed(s, client, stage, _, _, prior) =>
      if s != side then l
      else if stage.AfterMeasurement? then
        l.(noiseInitial := l.noiseInitial + 1,
           errors := l.errors + When(client !in l.observed || client in l.firstPeer, OutsideWindow),
           initialNoise := l.initialNoise[client := Count(l.initialNoise, client) + 1],
           firstNoise := if client in l.firstNoise then l.firstNoise else l.firstNoise[client := seqNo])
      else
        l.(noiseSweep := l.noiseSweep + 1,
           errors := l.errors + When(client !in l.firstPeer || prior == 0, NotDuringSweep))
    case PeerStarted(s, client, _, prior, _) =>
      if s != side || prior != 0 then l
      else if client !in l.observed then l.(firstPeer := l.firstPeer + {client})
      else
        l.(firstPeer := l.firstPeer + {client},
           errors := l.errors
             + When(Count(l.initialNoise, client) != wanted, CountMismatch)
             + When(wanted > 0 && Count(l.firstNoise, client) <= l.observed[client], PrecedesMeasurement))
    case MappingBound(s, key, endpoint) =>
      if s != side then l
      else
        l.(errors := l.errors + When(endpoint in l.table && l.table[endpoint] != key.destination, Reassigned),
           table := l.table[endpoint := key.destination])
    case Unmapped(s, _, _, _) => if s == side then l.(unbound := l.unbound + 1) else l
    case _ => l
  }

  function ReadAll(l: Ledger, side: Side, rows: seq<Row>, wanted: nat): Ledger
    decreases |rows|
  {
    if rows == [] then l else ReadAll(Read(l, side, rows[0], wanted), side, rows[1..], wanted)
  }

  /** The ledger's own count of reciprocal pairs: A's endpoints whose destination points back at them. */
  function RecountedPairs(a: Ledger, b: Ledger): set<Endpoint> {
    set e | e in a.table && a.table[e] in b.table && b.table[a.table[e]] == e
  }

  lemma {:induction false} ReadAllSplits(l: Ledger, side: Side, xs: seq<Row>, ys: seq<Row>, wanted: nat)
    ensures ReadAll(l, side, xs + ys, wanted) == ReadAll(ReadAll(l, side, xs, wanted), side, ys, wanted)
    decreases |xs|
  {
    if xs == [] {
      assert xs + ys == ys;
    } else {
      assert (xs + ys)[1..] == xs[1..] + ys;
      ReadAllSplits(Read(l, side, xs[0], wanted), side, xs[1..], ys, wanted);
    }
  }

  // ----- what rows leave alone -----

  /** Rows that say nothing about noise, measurements or first peers of `side`. */
  predicate NoNoise(row: Row, side: Side) {
    !(row.StunObserved? && row.side == side) && !(row.MappingConsumed? && row.side == side)
    && !(row.PeerStarted? && row.side == side && row.prior == 0)
  }

  predicate NoBind(row: Row, side: Side) {
    !(row.MappingBound? && row.side == side)
  }

  ghost predicate SameNoise(l: Ledger, l': Ledger) {
    && l.last <= l'.last
    && (l.observed, l.initialNoise, l.firstNoise, l.firstPeer) == (l'.observed, l'.initialNoise, l'.firstNoise, l'.firstPeer)
    && (l.noiseInitial, l.noiseSweep) == (l'.noiseInitial, l'.noiseSweep)
    && l.errors - {Reassigned} == l'.errors - {Reassigned}
  }

  ghost predicate SameBinds(l: Ledger, l': Ledger) {
    l.table == l'.table && (Reassigned in l.errors <==> Reassigned in l'.errors)
  }

  lemma {:induction false} NoiseUntouched(l: Ledger, side: Side, rows: seq<Row>, wanted: nat)
    requires forall row | row in rows :: NoNoise(row, side)
    ensures SameNoise(l, ReadAll(l, side, rows, wanted))
    decreases |rows|
  {
    if rows != [] {
      assert NoNoise(rows[0], side);
      NoiseUntouched(Read(l, side, rows[0], wanted), side, rows[1..], wanted);
    }
  }

  lemma {:induction false} BindsUntouched(l: Ledger, side: Side, rows: seq<Row>, wanted: nat)
    requires forall row | row in rows :: NoBind(row, side)
    ensures SameBinds(l, ReadAll(l, side, rows, wanted))
    decreases |rows|
  {
    if rows != [] {
      assert NoBind(rows[0], side);
      BindsUntouched(Read(l, side, rows[0], wanted), side, rows[1..], wanted);
    }
  }
}
