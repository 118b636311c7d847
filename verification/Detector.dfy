/**
 The NAT behaviour detector: how it turns the answers to its probes into a mapping behaviour, an allocation
 pattern and a filtering behaviour, following the test sequence of sections 4.3 and 4.4 of RFC 5780.
 */
module Detector {
  import opened Wrappers
  import opened SimNat

  datatype Group = SameTarget | DiffPort | DiffIp | NewSocket

  datatype Observation = Observation(group: Group, mapped: Addr)

  /** `kind` is `None` when there are too few answers or they fit no behaviour. */
  datatype Verdict = Verdict(kind: Option<Behaviour>, sample: Option<Addr>, confidence: real, reuse: bool)

  datatype AllocationKind = Stable | LinearStep | RandomPorts

  datatype FilteringState = Allow | Deny | NoResponse

  datatype Target = Target(vip: nat, port: int)

  datatype Profile = Profile(
    mapping: Option<Behaviour>, sample: Option<Addr>, confidence: real, reuse: bool,
    allocation: AllocationKind, step: int, ports: seq<int>,
    filtering: Option<Behaviour>, filteringState: FilteringState, degraded: bool)

  // ----- observations -----

  function InGroup(obs: seq<Observation>, g: Group): seq<Addr>
    decreases |obs|
  {
    if obs == [] then [] else (if obs[0].group == g then [obs[0].mapped] else []) + InGroup(obs[1..], g)
  }

  lemma {:induction false} InGroupAppends(obs: seq<Observation>, o: Observation, g: Group)
    ensures InGroup(obs + [o], g) == InGroup(obs, g) + if o.group == g then [o.mapped] else []
    decreases |obs|
  {
    if obs != [] {
      assert (obs + [o])[1..] == obs[1..] + [o];
      InGroupAppends(obs[1..], o, g);
    }
  }

  function Present(obs: seq<Observation>): set<Group> {
    set o | o in obs :: o.group
  }

  /** The reference mapping: the first to the main target, or else the first of all. */
  function Reference(obs: seq<Observation>): Addr
    requires obs != []
  {
    var same := InGroup(obs, SameTarget);
    if same != [] then same[0] else obs[0].mapped
  }

  function MappedOf(obs: seq<Observation>): (r: seq<Addr>)
    ensures |r| == |obs|
  {
    seq(|obs|, i requires 0 <= i < |obs| => obs[i].mapped)
  }

  predicate Uniform(mapped: seq<Addr>, sample: Addr) {
    forall i | 0 <= i < |mapped| :: mapped[i] == sample
  }

  predicate Differs(obs: seq<Observation>, g: Group, sample: Addr) {
    InGroup(obs, g) != [] && InGroup(obs, g)[0] != sample
  }

  /** How many of the four groups of tests were answered. */
  function Confidence(present: nat): real {
    present as real / 4.0
  }

  function Decide(sameAll: bool, portDiffers: bool, ipDiffers: bool, socketDiffers: bool): Option<Behaviour> {
    if sameAll then Some(EndpointIndependent)
    else if portDiffers then Some(AddressPortDependent)
    else if ipDiffers then Some(AddressDependent)
    else if socketDiffers then Some(EndpointIndependent)
    else None
  }

  function ClassifyMapping(obs: seq<Observation>): Verdict {
    if |obs| < 3 then
      Verdict(None, if obs == [] then None else Some(obs[0].mapped), if obs == [] then 0.0 else 1.0, false)
    else
      var sample := Reference(obs);
      var confidence := Confidence(|Present(obs)|);
      if !Uniform(InGroup(obs, SameTarget), sample) then
        Verdict(Some(AddressPortDependent), Some(sample), confidence, false)
      else
        var kind := Decide(Uniform(MappedOf(obs), sample), Differs(obs, DiffPort, sample),
                           Differs(obs, DiffIp, sample), Differs(obs, NewSocket, sample));
        Verdict(kind, Some(sample), confidence, !Differs(obs, NewSocket, sample))
  }

  lemma PresentAppends(obs: seq<Observation>, o: Observation)
    ensures Present(obs + [o]) == Present(obs) + {o.group}
  {
    assert (obs + [o])[|obs|] == o;
  }

  /** Each group present has its mapped addresses in the order observed. */
  ghost predicate Grouped(groups: map<Group, seq<Addr>>, obs: seq<Observation>) {
    && groups.Keys == Present(obs)
    && forall g :: InGroup(obs, g) == if g in groups then groups[g] else []
  }

  lemma GroupedGrows(groups: map<Group, seq<Addr>>, obs: seq<Observation>, o: Observation)
    requires Grouped(groups, obs)
    ensures Grouped(groups[o.group := (if o.group in groups then groups[o.group] else []) + [o.mapped]], obs + [o])
  {
    PresentAppends(obs, o);
    forall g ensures InGroup(obs + [o], g) == InGroup(obs, g) + if o.group == g then [o.mapped] else [] {
      InGroupAppends(obs, o, g);
    }
    hide InGroup, Present;
  }

  lemma {:induction false} PresentIsObserved(obs: seq<Observation>, g: Group)
    ensures g in Present(obs) <==> InGroup(obs, g) != []
    decreases |obs|
  {
    if obs != [] {
      assert obs == [obs[0]] + obs[1..];
      PresentIsObserved(obs[1..], g);
      assert g in Present(obs) <==> g == obs[0].group || g in Present(obs[1..]);
    }
  }

  /** The classifier's dictionary of groups. */
  method GroupObservations(obs: seq<Observation>) returns (groups: map<Group, seq<Addr>>)
    ensures groups.Keys == Present(obs)
    ensures forall g | g in groups :: groups[g] == InGroup(obs, g)
    ensures forall g :: g in groups <==> InGroup(obs, g) != []
  {
    groups := map[];
    assert Grouped(groups, obs[..0]);
    for i := 0 to |obs|
      invariant Grouped(groups, obs[..i])
    {
      var o := obs[i];
      assert obs[..i + 1] == obs[..i] + [o];
      GroupedGrows(groups, obs[..i], o);
      hide Grouped;
      groups := groups[o.group := (if o.group in groups then groups[o.group] else []) + [o.mapped]];
    }
    assert obs[..|obs|] == obs;
    forall g ensures g in Present(obs) <==> InGroup(obs, g) != [] {
      PresentIsObserved(obs, g);
    }
    hide InGroup, Present;
  }

  method AllEqual(mapped: seq<Addr>, sample: Addr) returns (same: bool)
    ensures same <==> Uniform(mapped, sample)
  {
    var k := 0;
    while k < |mapped|
      invariant 0 <= k <= |mapped|
      invariant forall i | 0 <= i < k :: mapped[i] == sample
    {
      if mapped[k] != sample {
        return false;
      }
      k := k + 1;
    }
    return true;
  }

  /** The classifier as it runs: group, check the main target for drift, compare the groups' first answers. */
  method Classify(obs: seq<Observation>) returns (v: Verdict)
    ensures v == ClassifyMapping(obs)
  {
    if |obs| < 3 {
      return Verdict(None, if obs == [] then None else Some(obs[0].mapped), if obs == [] then 0.0 else 1.0, false);
    }
    hide InGroup, Uniform, MappedOf, Present, Confidence;
    var groups := GroupObservations(obs);
    var sample := if SameTarget in groups then groups[SameTarget][0] else obs[0].mapped;
    var confidence := Confidence(|groups.Keys|);
    var steady := AllEqual(if SameTarget in groups then groups[SameTarget] else [], sample);
    if !steady {
      return Verdict(Some(AddressPortDependent), Some(sample), confidence, false);
    }
    var sameAll := AllEqual(MappedOf(obs), sample);
    var socketDiffers := NewSocket in groups && groups[NewSocket][0] != sample;
    var portDiffers := DiffPort in groups && groups[DiffPort][0] != sample;
    var ipDiffers := DiffIp in groups && groups[DiffIp][0] != sample;
    hide Decide;
    var kind := Decide(sameAll, portDiffers, ipDiffers, socketDiffers);
    return Verdict(kind, Some(sample), confidence, !socketDiffers);
  }

  // ----- port allocation -----

  function Diffs(ports: seq<int>): seq<int> {
    if |ports| < 2 then [] else seq(|ports| - 1, i requires 0 <= i < |ports| - 1 => ports[i + 1] - ports[i])
  }

  function Occurrences(s: seq<int>, x: int): nat {
    multiset(s)[x]
  }

  /** The first of the most frequent values among the first `n`, each counted in the whole sequence. */
  function Mode(s: seq<int>, n: nat): (i: nat)
    requires 0 < n <= |s|
    ensures i < n
    ensures forall j | 0 <= j < n :: Occurrences(s, s[j]) <= Occurrences(s, s[i])
    ensures forall j | 0 <= j < i :: Occurrences(s, s[j]) < Occurrences(s, s[i])
    decreases n
  {
    if n == 1 then 0
    else
      var best := Mode(s, n - 1);
      if Occurrences(s, s[n - 1]) > Occurrences(s, s[best]) then n - 1 else best
  }

  function ClassifyAllocation(ports: seq<int>): (AllocationKind, int) {
    if |ports| < 2 || (forall p | p in ports :: p == ports[0]) then (Stable, 0)
    else
      var diffs := Diffs(ports);
      var step := diffs[Mode(diffs, |diffs|)];
      if step != 0 && 5 * Occurrences(diffs, step) >= 3 * |diffs| then (LinearStep, step) else (RandomPorts, 0)
  }

  /** The counter over the differences. */
  method CountDiffs(diffs: seq<int>) returns (counter: map<int, nat>)
    ensures forall x | x in diffs :: x in counter && counter[x] == Occurrences(diffs, x)
  {
    counter := map[];
    var i := 0;
    while i < |diffs|
      invariant 0 <= i <= |diffs|
      invariant forall x :: (if x in counter then counter[x] else 0) == Occurrences(diffs[..i], x)
      invariant forall x | x in diffs[..i] :: x in counter
    {
      assert diffs[..i + 1] == diffs[..i] + [diffs[i]];
      counter := counter[diffs[i] := (if diffs[i] in counter then counter[diffs[i]] else 0) + 1];
      i := i + 1;
    }
    assert diffs[..|diffs|] == diffs;
  }

  method MostCommon(diffs: seq<int>, counter: map<int, nat>) returns (best: nat)
    requires diffs != [] && forall x | x in diffs :: x in counter && counter[x] == Occurrences(diffs, x)
    ensures best == Mode(diffs, |diffs|)
  {
    hide Occurrences;
    best := 0;
    var i := 1;
    while i < |diffs|
      invariant 1 <= i <= |diffs| && best == Mode(diffs, i)
    {
      assert diffs[i] in diffs && diffs[best] in diffs;
      if counter[diffs[i]] > counter[diffs[best]] {
        best := i;
      }
      i := i + 1;
    }
  }

  /** The allocation classifier as it runs: differences, their counter, and the first of the most common. */
  method ClassifyPorts(ports: seq<int>) returns (kind: AllocationKind, step: int)
    ensures (kind, step) == ClassifyAllocation(ports)
  {
    if |ports| < 2 || (forall p | p in ports :: p == ports[0]) {
      return Stable, 0;
    }
    var diffs := Diffs(ports);
    var counter := CountDiffs(diffs);
    hide Occurrences, Diffs;
    var best := MostCommon(diffs, counter);
    step := diffs[best];
    if step != 0 && 5 * counter[step] >= 3 * |diffs| {
      return LinearStep, step;
    }
    return RandomPorts, 0;
  }

  function Dedup(ports: seq<int>): seq<int>
    decreases |ports|
  {
    if |ports| < 2 then ports
    else
      var rest := Dedup(ports[..|ports| - 1]);
      if rest != [] && rest[|rest| - 1] == ports[|ports| - 1] then rest else rest + [ports[|ports| - 1]]
  }

  // ----- the probe sequence -----

  /** The targets that play a part: same server address and another port, and another server address. */
  function SecondPort(targets: seq<Target>, i: nat): (r: Option<nat>)
    requires targets != []
    ensures r.Some? ==> i <= r.value < |targets|
    decreases |targets| - i
  {
    if i >= |targets| then None
    else if targets[i].vip == targets[0].vip && targets[i].port != targets[0].port then Some(i)
    else SecondPort(targets, i + 1)
  }

  function SecondAddress(targets: seq<Target>, i: nat): (r: Option<nat>)
    requires targets != []
    ensures r.Some? ==> i <= r.value < |targets|
    decreases |targets| - i
  {
    if i >= |targets| then None
    else if targets[i].vip != targets[0].vip then Some(i)
    else SecondAddress(targets, i + 1)
  }

  /** The rest, from which the port sequence of a symmetric NAT is sampled. */
  function Extras(targets: seq<Target>, i: nat): seq<Target>
    requires targets != [] && 1 <= i
    decreases |targets| - i
  {
    if i >= |targets| then []
    else
      var used := SecondPort(targets, 1) == Some(i) || SecondAddress(targets, 1) == Some(i);
      (if used then [] else [targets[i]]) + Extras(targets, i + 1)
  }

  function MainProbes(targets: seq<Target>): seq<(Group, Target)>
    requires targets != []
  {
    var t1, t2 := SecondPort(targets, 1), SecondAddress(targets, 1);
    [(SameTarget, targets[0]), (SameTarget, targets[0])]
    + (if t1.Some? then [(DiffPort, targets[t1.value])] else [])
    + (if t2.Some? then [(DiffIp, targets[t2.value])] else [])
  }

  /** Answers go into one dictionary by tag, so that a later probe with the same tag overwrites an earlier one. */
  function Slot(tags: seq<Group>, results: seq<Option<Addr>>, tag: Group): Option<Addr>
    requires |tags| == |results|
    decreases |tags|
  {
    if tags == [] then None
    else if tags[|tags| - 1] == tag then results[|tags| - 1]
    else Slot(tags[..|tags| - 1], results[..|tags| - 1], tag)
  }

  function Observed(tags: seq<Group>, all: seq<Group>, results: seq<Option<Addr>>): seq<Observation>
    requires |all| == |results|
    decreases |tags|
  {
    if tags == [] then []
    else
      var slot := Slot(all, results, tags[0]);
      (if slot.Some? then [Observation(tags[0], slot.value)] else []) + Observed(tags[1..], all, results)
  }

  function Observations(tags: seq<Group>, results: seq<Option<Addr>>, other: Option<Addr>): seq<Observation>
    requires |tags| == |results|
  {
    Observed(tags, tags, results) + if other.Some? then [Observation(NewSocket, other.value)] else []
  }

  /** The observation loop over the shared dictionary of answers. */
  method CollectObservations(tags: seq<Group>, results: seq<Option<Addr>>, other: Option<Addr>) returns (obs: seq<Observation>)
    requires |tags| == |results|
    ensures obs == Observations(tags, results, other)
  {
    var batch: map<Group, Option<Addr>> := map[];
    var i := 0;
    while i < |tags|
      invariant 0 <= i <= |tags|
      invariant forall g :: (if g in batch then batch[g] else None) == Slot(tags[..i], results[..i], g)
    {
      assert tags[..i + 1][..i] == tags[..i] && results[..i + 1][..i] == results[..i];
      batch := batch[tags[i] := results[i]];
      i := i + 1;
    }
    assert tags[..|tags|] == tags && results[..|tags|] == results;
    obs := [];
    i := 0;
    while i < |tags|
      invariant 0 <= i <= |tags|
      invariant obs + Observed(tags[i..], tags, results) == Observed(tags, tags, results)
    {
      assert tags[i..][1..] == tags[i + 1..];
      var slot := if tags[i] in batch then batch[tags[i]] else None;
      if slot.Some? {
        obs := obs + [Observation(tags[i], slot.value)];
      }
      i := i + 1;
    }
    if other.Some? {
      obs := obs + [Observation(NewSocket, other.value)];
    }
  }

  function Symmetric(kind: Option<Behaviour>): bool {
    kind == Some(AddressDependent) || kind == Some(AddressPortDependent)
  }

  function Last(s: seq<Addr>): Option<int> {
    if s == [] then None else Some(s[|s| - 1].port)
  }

  function PortOf(p: Option<int>): seq<int> {
    if p.Some? then [p.value] else []
  }

  /** The ports the allocation is judged by: the reference mapping and every mapping known to be new. */
  function PortSequence(kind: Option<Behaviour>, obs: seq<Observation>, extra: seq<int>): seq<int> {
    if obs == [] then if Symmetric(kind) then extra else []
    else
      [obs[0].mapped.port]
      + (if kind == Some(AddressPortDependent) then PortOf(Last(InGroup(obs, DiffPort))) else [])
      + (if Symmetric(kind) then PortOf(Last(InGroup(obs, DiffIp))) + extra else [])
  }

  /** The filtering verdict from the two change requests to the main target, `None` where nothing came back. */
  function FilteringVerdict(targets: seq<Target>, byPort: Option<Reply>, byIp: Option<Reply>, alive: bool)
    : (Option<Behaviour>, FilteringState)
    requires targets != []
  {
    var t1, t2 := SecondPort(targets, 1), SecondAddress(targets, 1);
    var portChanged := byPort.Some?
      && (byPort.value.source != targets[0].port || (t1.Some? && byPort.value.source == targets[t1.value].port));
    var ipChanged := byIp.Some?
      && (byIp.value.source != targets[0].port || (t2.Some? && byIp.value.source == targets[t2.value].port));
    if ipChanged then (Some(EndpointIndependent), Allow)
    else if portChanged then (Some(AddressDependent), Allow)
    else if alive then (Some(AddressPortDependent), Deny)
    else (None, NoResponse)
  }

  /** The main socket heard from some server. */
  predicate ServerAlive(obs: seq<Observation>) {
    exists o | o in obs :: !o.group.NewSocket?
  }

  /** What the detector reports once every probe has been answered or has timed out. */
  function Conclude(targets: seq<Target>, obs: seq<Observation>, extra: seq<int>, byPort: Option<Reply>, byIp: Option<Reply>): Profile
    requires targets != []
  {
    var v := ClassifyMapping(obs);
    var ports := Dedup(PortSequence(v.kind, obs, extra));
    var (allocation, step) := ClassifyAllocation(ports);
    var (filtering, filteringState) := FilteringVerdict(targets, byPort, byIp, ServerAlive(obs));
    Profile(v.kind, v.sample, v.confidence, v.reuse, allocation, step, ports, filtering, filteringState,
            SecondPort(targets, 1).None? || SecondAddress(targets, 1).None?)
  }
}
