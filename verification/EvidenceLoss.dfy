/** The shim's counters against the gateway's rows: what equal counts say about the datagrams of a round. */
module EvidenceLoss {
  import opened Wrappers
  import opened StunCodec
  import opened NatModel
  import opened Evidence
  import opened EvidenceFindings
  import opened EvidenceReplay
  import opened EgressShim

  /** The payload sizes of a side's captures, in the order of the trace. */
  ghost function RowSizes(t: seq<Row>, side: Side): seq<nat>
    decreases |t|
  {
    if t == [] then []
    else
      var row := t[|t| - 1];
      RowSizes(t[..|t| - 1], side) + if row.EgressCaptured? && row.side == side then [row.bytes] else []
  }

  /** The payload sizes of the frames that the gateway takes, in the order of arrival. */
  ghost function TakenSizes(arrived: seq<Bytes>): seq<nat>
    decreases |arrived|
  {
    if arrived == [] then []
    else
      var frame := arrived[|arrived| - 1];
      TakenSizes(arrived[..|arrived| - 1]) + if Receive(frame).Captured? then [|Receive(frame).data|] else []
  }

  ghost function Sum(sizes: seq<nat>): nat
    decreases |sizes|
  {
    if sizes == [] then 0 else Sum(sizes[..|sizes| - 1]) + sizes[|sizes| - 1]
  }

  lemma {:induction false} RowsAreCounted(t: seq<Row>, side: Side, n: nat)
    requires n <= |t|
    ensures |Places(t, n, side, Capture)| == |RowSizes(t[..n], side)| && CapturedBytes(t, side, n) == Sum(RowSizes(t[..n], side))
  {
    if n > 0 {
      RowsAreCounted(t, side, n - 1);
      PlacesGrow(t, n - 1, side, Capture);
      assert t[..n][..n - 1] == t[..n - 1];
      var sizes := RowSizes(t[..n - 1], side);
      if Is(t[n - 1], side, Capture) {
        var grown := sizes + [t[n - 1].bytes];
        assert grown[..|grown| - 1] == sizes;
        assert RowSizes(t[..n], side) == grown;
      } else {
        assert sizes + [] == sizes;
      }
      hide Places;
    } else {
      assert Places(t, 0, side, Capture) == {};
    }
  }

  /** At most so many are taken, and all of them exactly when every frame is. */
  lemma {:induction false} TakenAtMost(arrived: seq<Bytes>)
    ensures |TakenSizes(arrived)| <= |arrived|
    ensures |TakenSizes(arrived)| == |arrived| <==> forall frame | frame in arrived :: Receive(frame).Captured?
    decreases |arrived|
  {
    if arrived != [] {
      var n := |arrived| - 1;
      TakenAtMost(arrived[..n]);
      assert arrived == arrived[..n] + [arrived[n]];
    }
  }

  lemma TakenSize(frame: Bytes)
    requires Receive(frame).Captured?
    ensures |Receive(frame).data| == |frame| - HEADER_SIZE
  {
  }

  lemma {:induction false} TakenSum(arrived: seq<Bytes>)
    requires forall frame | frame in arrived :: Receive(frame).Captured?
    ensures Sum(TakenSizes(arrived)) == Total(arrived)
    decreases |arrived|
  {
    if arrived != [] {
      var n := |arrived| - 1;
      assert arrived == arrived[..n] + [arrived[n]];
      TakenSum(arrived[..n]);
      TakenSize(arrived[n]);
      var sizes := TakenSizes(arrived[..n]);
      assert (sizes + [|Receive(arrived[n]).data|])[..|sizes|] == sizes;
      hide Receive;
    }
  }

  lemma {:induction false} TotalOfTwo(a: seq<Bytes>, b: seq<Bytes>)
    ensures Total(a + b) == Total(a) + Total(b)
    decreases |b|
  {
    if b == [] {
      assert a + b == a;
    } else {
      TotalOfTwo(a, b[..|b| - 1]);
      assert (a + b)[..|a + b| - 1] == a + b[..|b| - 1];
    }
  }

  lemma {:induction false} TotalIgnoresOrder(a: seq<Bytes>, b: seq<Bytes>)
    requires multiset(a) == multiset(b)
    ensures Total(a) == Total(b)
    decreases |a|
  {
    if a == [] {
      assert b == [] by { assert |multiset(b)| == |b|; }
    } else {
      var n := |a| - 1;
      assert a == a[..n] + [a[n]];
      assert a[n] in multiset(b);
      var i :| 0 <= i < |b| && b[i] == a[n];
      var rest := b[..i] + b[i + 1..];
      assert b == b[..i] + ([b[i]] + b[i + 1..]);
      assert multiset(rest) == multiset(b) - multiset{a[n]};
      assert multiset(a[..n]) == multiset(a) - multiset{a[n]};
      TotalIgnoresOrder(a[..n], rest);
      TotalOfTwo(b[..i], b[i + 1..]);
      TotalOfTwo(b[..i], [b[i]] + b[i + 1..]);
      TotalOfTwo([b[i]], b[i + 1..]);
      var one: seq<Bytes> := [b[i]];
      assert Total(one[..0]) == 0;
    }
  }

  /** The rows of a side are those of the frames that reached its gateway and were taken there. */
  ghost predicate Recorded(t: seq<Row>, side: Side, arrived: seq<Bytes>) {
    RowSizes(t, side) == TakenSizes(arrived)
  }

  /** The counters are those of a shim that sent these frames. */
  ghost predicate CountedBy(x: Aside, wire: seq<Bytes>) {
    && x.counters.Some? && x.counters.value.genuine && x.gateway == Some(x.counters.value.gateway)
    && x.counters.value.datagrams == |wire| && x.counters.value.bytes == Total(wire)
  }

  /**
   A loss or a duplicate is reported exactly when not every frame that a shim sent arrived at its gateway and was taken
   there, over a channel that may lose and reorder frames but adds none.
   */
  lemma LossIsReportedIff(t: seq<Row>, side: Side, x: Aside, wanted: Wanted, wire: seq<Bytes>, arrived: seq<Bytes>)
    requires multiset(arrived) <= multiset(wire) && Recorded(t, side, arrived) && CountedBy(x, wire)
    ensures LossOrDuplicate !in ClosingFindings(ReadAll(EMPTY_LEDGER, side, t, wanted.initial), x, wanted) <==>
      multiset(arrived) == multiset(wire) && forall frame | frame in wire :: Receive(frame).Captured?
  {
    ClosingMeans(t, side, x, wanted, LossOrDuplicate);
    assert t[..|t|] == t;
    RowsAreCounted(t, side, |t|);
    TakenAtMost(arrived);
    NothingMissing(wire, arrived);
    hide ClosingFindings, ReadAll, Places, CapturedBytes, RowSizes, TakenSizes, Receive;
    if multiset(arrived) == multiset(wire) && forall frame | frame in wire :: Receive(frame).Captured? {
      TotalIgnoresOrder(arrived, wire);
      forall frame | frame in arrived ensures Receive(frame).Captured? { assert frame in multiset(wire); }
      TakenSum(arrived);
    }
  }

  lemma NothingMissing(wire: seq<Bytes>, arrived: seq<Bytes>)
    requires multiset(arrived) <= multiset(wire)
    ensures |arrived| <= |wire| && (|arrived| == |wire| <==> multiset(arrived) == multiset(wire))
    ensures multiset(arrived) == multiset(wire) ==> forall frame :: frame in wire <==> frame in arrived
  {
    var missing := multiset(wire) - multiset(arrived);
    assert multiset(wire) == multiset(arrived) + missing;
    assert |multiset(wire)| == |wire| && |multiset(arrived)| == |arrived|;
    if multiset(arrived) == multiset(wire) {
      forall frame ensures frame in wire <==> frame in arrived {
        assert frame in wire <==> frame in multiset(wire);
        assert frame in arrived <==> frame in multiset(arrived);
      }
    } else {
      assert |missing| != 0;
    }
  }

  /** So nothing of a round that is found sound was lost on the way to its gateway. */
  lemma SoundLosesNothing(t: seq<Row>, side: Side, x: Aside, wanted: Wanted, wire: seq<Bytes>, arrived: seq<Bytes>)
    requires multiset(arrived) <= multiset(wire) && Recorded(t, side, arrived)
    requires x.counters.Some? ==> x.counters.value.datagrams == |wire| && x.counters.value.bytes == Total(wire)
    requires Sound(t, side, x, wanted)
    ensures multiset(arrived) == multiset(wire) && forall frame | frame in wire :: Receive(frame).Captured?
  {
    SoundIff(t, side, x, wanted);
    assert !Lacks(t, side, x, wanted, CountersMissing);
    hide ClosingFindings, ReadAll, Receive, Sound;
    LossIsReportedIff(t, side, x, wanted, wire, arrived);
  }
}
