/** What the classifiers say, by the places of the observations and of the ports. */
module DetectorVerdicts {
  import opened Wrappers
  import opened SimNat
  import opened Detector
  import opened DetectorRuns

  // ----- port allocation -----

  ghost function Gap(ports: seq<int>, i: int): int
    requires 0 <= i < |ports| - 1
  {
    ports[i + 1] - ports[i]
  }

  /** The places at which the ports go on by `x`. */
  ghost function StepsBy(ports: seq<int>, x: int): set<int> {
    set i | 0 <= i < |ports| - 1 && Gap(ports, i) == x
  }

  ghost predicate Differing(ports: seq<int>) {
    exists i, j :: 0 <= i < |ports| && 0 <= j < |ports| && ports[i] != ports[j]
  }

  /** At least three in five times the ports go on by `x`. */
  ghost predicate GoesOnBy(ports: seq<int>, x: int) {
    x != 0 && 5 * |StepsBy(ports, x)| >= 3 * (|ports| - 1)
  }

  ghost function Places(s: seq<int>, x: int): set<int> {
    set i | 0 <= i < |s| && s[i] == x
  }

  lemma {:induction false} OccurrencesArePlaces(s: seq<int>, x: int)
    ensures Occurrences(s, x) == |Places(s, x)|
    decreases |s|
  {
    if s != [] {
      var n := |s| - 1;
      var front := s[..n];
      OccurrencesArePlaces(front, x);
      assert s == front + [s[n]];
      if s[n] == x {
        assert Places(s, x) == Places(front, x) + {n};
      } else {
        assert Places(s, x) == Places(front, x);
      }
    }
  }

  lemma StepsAreOccurrences(ports: seq<int>, x: int)
    requires |ports| >= 2
    ensures |Diffs(ports)| == |ports| - 1 && |StepsBy(ports, x)| == Occurrences(Diffs(ports), x)
  {
    OccurrencesArePlaces(Diffs(ports), x);
    assert StepsBy(ports, x) == Places(Diffs(ports), x);
  }

  lemma {:induction false} TwoFit(s: seq<int>, x: int, y: int)
    requires x != y
    ensures Occurrences(s, x) + Occurrences(s, y) <= |s|
    decreases |s|
  {
    if s != [] {
      TwoFit(s[1..], x, y);
      assert s == [s[0]] + s[1..];
    }
  }

  /** What makes up three in five is the first of the most frequent. */
  lemma MajorityIsMode(s: seq<int>, x: int)
    requires s != [] && 5 * Occurrences(s, x) >= 3 * |s|
    ensures s[Mode(s, |s|)] == x
  {
    var m := s[Mode(s, |s|)];
    assert x in multiset(s);
    var i :| 0 <= i < |s| && s[i] == x;
    assert Occurrences(s, s[i]) <= Occurrences(s, m);
    if m != x { TwoFit(s, m, x); }
  }

  lemma DifferingIs(ports: seq<int>)
    ensures Differing(ports) <==> !(|ports| < 2 || forall p | p in ports :: p == ports[0])
  {
    if !(|ports| < 2 || forall p | p in ports :: p == ports[0]) {
      var i :| 0 <= i < |ports| && ports[i] != ports[0];
      assert ports[i] != ports[0];
    }
    if Differing(ports) {
      var i, j :| 0 <= i < |ports| && 0 <= j < |ports| && ports[i] != ports[j];
      assert ports[i] in ports && ports[j] in ports;
    }
  }

  /**
   The allocation verdict by counting: stable when no two ports differ, linear with the one nonzero step that the ports
   take at least three in five times, and random when there is none.
   */
  lemma AllocationVerdict(ports: seq<int>)
    ensures ClassifyAllocation(ports).0 == Stable <==> !Differing(ports)
    ensures ClassifyAllocation(ports).0 == RandomPorts <==> Differing(ports) && forall x :: !GoesOnBy(ports, x)
    ensures forall x :: ClassifyAllocation(ports) == (LinearStep, x) <==> Differing(ports) && GoesOnBy(ports, x)
    ensures ClassifyAllocation(ports).0 != LinearStep ==> ClassifyAllocation(ports).1 == 0
  {
    DifferingIs(ports);
    if Differing(ports) {
      hide Differing;
      forall x ensures ClassifyAllocation(ports) == (LinearStep, x) <==> GoesOnBy(ports, x) {
        LinearByCounting(ports, x);
      }
      hide GoesOnBy, Occurrences, Diffs;
      assert ClassifyAllocation(ports).0 == LinearStep ==> GoesOnBy(ports, ClassifyAllocation(ports).1);
    }
  }

  lemma LinearByCounting(ports: seq<int>, x: int)
    requires !(|ports| < 2 || forall p | p in ports :: p == ports[0])
    ensures ClassifyAllocation(ports) == (LinearStep, x) <==> GoesOnBy(ports, x)
  {
    StepsAreOccurrences(ports, x);
    hide StepsBy, Occurrences, Diffs;
    if GoesOnBy(ports, x) { MajorityIsMode(Diffs(ports), x); }
  }

  /** On every detection: the report says stable only of ports that are all equal, and linear only of a step they take. */
  lemma ReportedAllocation(s: SimState, c: Addr, second: Addr, x: Session, profile: Profile)
    requires Detects(s, c, second, x, profile)
    ensures profile.allocation == Stable <==> !Differing(profile.ports)
    ensures profile.allocation == RandomPorts <==> Differing(profile.ports) && forall y :: !GoesOnBy(profile.ports, y)
    ensures forall y :: (profile.allocation, profile.step) == (LinearStep, y) <==> Differing(profile.ports) && GoesOnBy(profile.ports, y)
  {
    AllocationVerdict(profile.ports);
    ProfileAllocation(s, c, second, x, profile);
    hide Differing, GoesOnBy, ClassifyAllocation, Detects;
  }

  lemma ProfileAllocation(s: SimState, c: Addr, second: Addr, x: Session, profile: Profile)
    requires Detects(s, c, second, x, profile)
    ensures (profile.allocation, profile.step) == ClassifyAllocation(profile.ports)
  {
    hide Follows, ClassifyAllocation, ClassifyMapping, Dedup, PortSequence, FilteringVerdict, ObservationsOf, Targets, MappedPorts, MainProbes,
      FirstBatch, MoreBatch, SecondPort, SecondAddress;
  }

  // ----- mapping -----

  /** The first observation of a group is at place `i`. */
  ghost predicate FirstOf(obs: seq<Observation>, g: Group, i: int) {
    0 <= i < |obs| && obs[i].group == g && forall j | 0 <= j < i :: obs[j].group != g
  }

  /** The first observation of a group is not of `sample`. */
  ghost predicate Off(obs: seq<Observation>, g: Group, sample: Addr) {
    exists i :: FirstOf(obs, g, i) && obs[i].mapped != sample
  }

  ghost predicate Drifts(obs: seq<Observation>, sample: Addr) {
    exists i :: 0 <= i < |obs| && obs[i].group == SameTarget && obs[i].mapped != sample
  }

  /** What the others are compared with is at place `r`. */
  ghost predicate Compares(obs: seq<Observation>, r: int) {
    FirstOf(obs, SameTarget, r) || (r == 0 && forall i | 0 <= i < |obs| :: obs[i].group != SameTarget)
  }

  lemma {:induction false} InGroupAre(obs: seq<Observation>, g: Group)
    ensures InGroup(obs, g) == [] <==> forall i | 0 <= i < |obs| :: obs[i].group != g
    ensures forall a :: a in InGroup(obs, g) <==> Observation(g, a) in obs
    ensures InGroup(obs, g) != [] ==> exists i :: FirstOf(obs, g, i) && obs[i].mapped == InGroup(obs, g)[0]
    decreases |obs|
  {
    if obs != [] {
      var rest := obs[1..];
      InGroupAre(rest, g);
      assert obs == [obs[0]] + rest;
      if obs[0].group == g {
        assert FirstOf(obs, g, 0);
      } else if InGroup(rest, g) != [] {
        var i :| FirstOf(rest, g, i) && rest[i].mapped == InGroup(rest, g)[0];
        assert FirstOf(obs, g, i + 1);
      }
    }
  }

  lemma FirstIsOne(obs: seq<Observation>, g: Group, i: int, j: int)
    requires FirstOf(obs, g, i) && FirstOf(obs, g, j)
    ensures i == j
  {
  }

  lemma DiffersIsOff(obs: seq<Observation>, g: Group, sample: Addr)
    ensures Differs(obs, g, sample) <==> Off(obs, g, sample)
  {
    InGroupAre(obs, g);
    hide InGroup;
    if InGroup(obs, g) != [] {
      var i :| FirstOf(obs, g, i) && obs[i].mapped == InGroup(obs, g)[0];
      forall j | FirstOf(obs, g, j) ensures j == i { FirstIsOne(obs, g, i, j); }
    }
  }

  lemma ReferenceIs(obs: seq<Observation>, r: int)
    requires obs != [] && Compares(obs, r)
    ensures 0 <= r < |obs| && Reference(obs) == obs[r].mapped
    ensures Uniform(InGroup(obs, SameTarget), Reference(obs)) <==> !Drifts(obs, obs[r].mapped)
  {
    InGroupAre(obs, SameTarget);
    hide InGroup;
    if InGroup(obs, SameTarget) != [] {
      var i :| FirstOf(obs, SameTarget, i) && obs[i].mapped == InGroup(obs, SameTarget)[0];
      FirstIsOne(obs, SameTarget, i, r) by { assert FirstOf(obs, SameTarget, r); }
    }
    var sample := obs[r].mapped;
    if Drifts(obs, sample) {
      var i :| 0 <= i < |obs| && obs[i].group == SameTarget && obs[i].mapped != sample;
      assert obs[i] == Observation(SameTarget, obs[i].mapped);
      assert obs[i].mapped in InGroup(obs, SameTarget);
    }
    if !Uniform(InGroup(obs, SameTarget), sample) {
      var k :| 0 <= k < |InGroup(obs, SameTarget)| && InGroup(obs, SameTarget)[k] != sample;
      assert Observation(SameTarget, InGroup(obs, SameTarget)[k]) in obs;
    }
  }

  /** The mapping verdict by places: what is compared with what, and what each difference is taken for. */
  lemma MappingVerdict(obs: seq<Observation>, r: int)
    requires |obs| >= 3 && Compares(obs, r)
    ensures 0 <= r < |obs|
    ensures var v, sample := ClassifyMapping(obs), obs[r].mapped;
      && v.sample == Some(sample) && v.confidence == |set o | o in obs :: o.group| as real / 4.0
      && v.kind == (if Drifts(obs, sample) then Some(AddressPortDependent)
                    else if forall i | 0 <= i < |obs| :: obs[i].mapped == sample then Some(EndpointIndependent)
                    else if Off(obs, DiffPort, sample) then Some(AddressPortDependent)
                    else if Off(obs, DiffIp, sample) then Some(AddressDependent)
                    else if Off(obs, NewSocket, sample) then Some(EndpointIndependent) else None)
      && (v.reuse <==> !Drifts(obs, sample) && !Off(obs, NewSocket, sample))
  {
    ReferenceIs(obs, r);
    DiffersIsOff(obs, DiffPort, obs[r].mapped);
    DiffersIsOff(obs, DiffIp, obs[r].mapped);
    DiffersIsOff(obs, NewSocket, obs[r].mapped);
    assert Uniform(MappedOf(obs), obs[r].mapped) <==> forall i | 0 <= i < |obs| :: obs[i].mapped == obs[r].mapped by {
      assert forall i | 0 <= i < |obs| :: MappedOf(obs)[i] == obs[i].mapped;
    }
    hide InGroup, Differs, Off, Drifts, Reference, Compares, Uniform, MappedOf;
  }

  /** Fewer than three answers decide nothing. */
  lemma FewAnswers(obs: seq<Observation>)
    requires |obs| < 3
    ensures var v := ClassifyMapping(obs);
      && v.kind == None && !v.reuse && (v.sample.Some? <==> obs != []) && (obs != [] ==> v.sample == Some(obs[0].mapped) && v.confidence == 1.0)
  {
  }
}
