/** The set of reciprocal pairs kept report by report, against the checker's recount from its two tables. */
module PairRecount {
  import opened NatModel
  import opened NatTable
  import opened NatWorld
  import opened WorldSafety
  import opened Evidence
  import opened EvidenceAgreement
  import opened EvidenceRuns
  import opened Wrappers

  ghost predicate AllReported(w: World) {
    && (forall k | k in w.a.mappings && w.a.mappings[k].bound :: w.a.mappings[k].reported)
    && (forall k | k in w.b.mappings && w.b.mappings[k].bound :: w.b.mappings[k].reported)
  }

  ghost function Recounted(w: World): set<Endpoint> {
    RecountedPairs(LedgerOf(w.a, w.trace), LedgerOf(w.b, w.trace))
  }

  /** The pair that an endpoint of A's table stands for. */
  ghost function PairAt(l: Ledger, e: Endpoint): (Endpoint, Endpoint)
    requires e in l.table
  {
    SortPair(e, l.table[e])
  }

  /** What the recount finds is a mutual pair of reported mappings. */
  lemma RecountedIsLinked(w: World, e: Endpoint) returns (k: Key, k': Key)
    requires WorldInv(w) && EvidenceOk(w) && e in Recounted(w)
    ensures Linked(w, SideA, k, k') && w.a.mappings[k].reported && w.b.mappings[k'].reported
    ensures e == MappingEndpoint(w.a, k) && e in LedgerOf(w.a, w.trace).table
    ensures PairAt(LedgerOf(w.a, w.trace), e) == PairOf(w, SideA, k, k')
  {
    var la, lb := LedgerOf(w.a, w.trace), LedgerOf(w.b, w.trace);
    InvBound(w.a);
    InvBound(w.b);
    assert TableAgrees(w.a, la) && TableAgrees(w.b, lb);
    hide LedgerOf, NatInv, PairsOk, TrafficOk, Separate, NoiseAgrees;
    k :| k in w.a.mappings && w.a.mappings[k].reported && MappingEndpoint(w.a, k) == e;
    k' :| k' in w.b.mappings && w.b.mappings[k'].reported && MappingEndpoint(w.b, k') == la.table[e];
  }

  /** Every mutual pair of reported mappings is recounted. */
  lemma LinkedIsRecounted(w: World, k: Key, k': Key)
    requires WorldInv(w) && EvidenceOk(w)
    requires Linked(w, SideA, k, k') && w.a.mappings[k].reported && w.b.mappings[k'].reported
    ensures var e := MappingEndpoint(w.a, k);
      e in Recounted(w) && PairAt(LedgerOf(w.a, w.trace), e) == PairOf(w, SideA, k, k')
  {
    hide LedgerOf, WorldInv, NoiseAgrees;
  }

  /** Two recounted endpoints of A never stand for the same pair: an endpoint belongs to one NAT only. */
  lemma PairAtIsInjective(w: World, e: Endpoint, e': Endpoint)
    requires WorldInv(w) && EvidenceOk(w) && e in Recounted(w) && e' in Recounted(w)
    requires PairAt(LedgerOf(w.a, w.trace), e) == PairAt(LedgerOf(w.a, w.trace), e')
    ensures e == e'
  {
    var k, k' := RecountedIsLinked(w, e);
    var m, m' := RecountedIsLinked(w, e');
    var x, y, y' := MappingEndpoint(w.a, k), MappingEndpoint(w.b, k'), MappingEndpoint(w.b, m');
    assert e == x && y == k.destination && y' == m.destination;
    assert x != y' by {
      InvBound(w.a);
      InvBound(w.b);
      assert x.port in w.a.forwarders && OwnsPublicEndpoint(w.b, y');
      hide NatInv;
    }
    hide WorldInv, EvidenceOk, Linked, LedgerOf;
  }

  lemma {:induction false} ImageSize(s: set<Endpoint>, l: Ledger)
    requires forall e | e in s :: e in l.table
    requires forall e, e' | e in s && e' in s && PairAt(l, e) == PairAt(l, e') :: e == e'
    ensures |set e | e in s :: PairAt(l, e)| == |s|
    decreases s
  {
    var image := set e | e in s :: PairAt(l, e);
    if s != {} {
      var e :| e in s;
      ImageSize(s - {e}, l);
      assert image == (set e' | e' in s - {e} :: PairAt(l, e')) + {PairAt(l, e)};
    }
  }

  /** The recount never exceeds the incremental set, and equals it once every bound mapping has been reported. */
  lemma RecountIsIncremental(w: World)
    requires WorldInv(w) && EvidenceOk(w)
    ensures |Recounted(w)| <= |w.pairs|
    ensures AllReported(w) ==> |Recounted(w)| == |w.pairs|
  {
    var l := LedgerOf(w.a, w.trace);
    hide LedgerOf, EvidenceOk;
    assert forall e | e in Recounted(w) :: e in l.table;
    var image := set e | e in Recounted(w) :: PairAt(l, e);
    RecountImage(w);
    forall e, e' | e in Recounted(w) && e' in Recounted(w) && PairAt(l, e) == PairAt(l, e') ensures e == e' {
      PairAtIsInjective(w, e, e');
    }
    hide WorldInv, Recounted;
    ImageSize(Recounted(w), l);
    SubsetSize(image, w.pairs);
  }

  lemma RecountImage(w: World)
    requires WorldInv(w) && EvidenceOk(w)
    ensures forall e | e in Recounted(w) :: e in LedgerOf(w.a, w.trace).table
    ensures var image := set e | e in Recounted(w) :: PairAt(LedgerOf(w.a, w.trace), e);
      image <= w.pairs && (AllReported(w) ==> image == w.pairs)
  {
    var l := LedgerOf(w.a, w.trace);
    assert PairsOk(w);
    hide LedgerOf, EvidenceOk, WorldInv;
    forall e | e in Recounted(w) ensures e in l.table && PairAt(l, e) in w.pairs {
      var k, k' := RecountedIsLinked(w, e);
    }
    if AllReported(w) {
      forall pair | pair in w.pairs ensures exists e :: e in Recounted(w) && PairAt(l, e) == pair {
        var k, k' :| Linked(w, SideA, k, k') && pair == PairOf(w, SideA, k, k');
        LinkedIsRecounted(w, k, k');
      }
    }
  }

  lemma {:induction false} SubsetSize<T>(s: set<T>, t: set<T>)
    requires s <= t
    ensures |s| <= |t|
  {
    assert t == s + (t - s);
  }

  /** On every run: the checker's recount against the simulator's set of pairs. */
  lemma RunRecount(w: World, es: seq<Event>, w': World)
    requires Start(w) && Runs(w, es, w')
    ensures |Recounted(w')| <= |w'.pairs|
    ensures AllReported(w') ==> |Recounted(w')| == |w'.pairs|
  {
    StartInv(w);
    StartEvidence(w);
    RunEvidence(w, es, w');
    RecountIsIncremental(w');
  }

  /**
   What the matrix concludes from: if a strictly filtering NAT ever handed a datagram of the other NAT to its
   client and all bound mappings have been reported, the checker's recount is not zero.
   */
  lemma StrictDirectLeavesAPair(w: World, es: seq<Event>, w': World, d: Delivery)
    requires Start(w) && Runs(w, es, w') && AllReported(w')
    requires d in w'.deliveries && d.flight.via.Some? && Of(w', d.flight.receiver).cfg.strictFiltering
    ensures |Recounted(w')| > 0
  {
    StrictDeliveryIsMutual(w, es, w', d);
    StartInv(w);
    StartEvidence(w);
    RunEvidence(w, es, w');
    LinkedIsSymmetric(w', d.flight.receiver, d.flight.key, d.flight.via.value);
    var k, k' := if d.flight.receiver.SideA? then d.flight.key else d.flight.via.value,
                 if d.flight.receiver.SideA? then d.flight.via.value else d.flight.key;
    hide WorldInv, EvidenceOk, Runs, Start;
    LinkedIsRecounted(w', k, k');
    assert MappingEndpoint(w'.a, k) in Recounted(w');
  }
}
