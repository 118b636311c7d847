# Verified models of the NAT traversal tooling

This project models the parts of the repository that decide things: the dual-NAT simulator and the program that
checks its traces, the RFC 5780 detector and its own simulator, the port-block reservation protocol, port prediction,
the STUN codecs, the server's rate limiter, the puncher's pair cache, the egress shim and the merge gate. Code that the
repository writes with objects, loops and updates in place is written here as classes and methods, each proved equal to
a function; the theorems are about those functions and about runs of them.

Proofs by induction are written out and do not rely on automatic induction.

## What is where

- `PortRing`, `Arithmetic`: the public-port allocator and its look-ahead; completeness of the ring walk.
- `NatModel`, `NatTable`, `NatWorld`, `WorldSafety`: two NATs on one fabric as a step relation (STUN request, egress
  datagram, bind that succeeds or finds its port busy, report, flush of one datagram, arrival, delayed delivery), and
  what every step and every run keeps.
- `ClientTraffic`, `DirectTraffic`, `SweepNoise`: what becomes of one datagram, from the options, the gate files and the
  tables alone: at its own NAT, and on the way to the other client; and how much noise a run injects.
- `Evidence`, `EvidenceAgreement`, `EvidenceRuns`, `PairRecount`, `EvidenceReplay`: the trace checker, and what it can
  say about a trace that the simulator wrote. `EvidenceFindings`, `EvidenceLoss`: what its findings mean in terms of the
  rows, and of the frames that a shim sent.
- `NonInterference`, `SharedGenerator`: two runs that agree on one NAT's own ingress agree on its allocation, unless packet
  faults are drawn from the generator that ports come from.
- `NatObjects`: the `Nat`, `NatFabric` and `NatTrace` objects, updated in place.
- `SimNat`, `SimNatObjects`, `Detector`: the research simulator and the detector. `DetectorVerdicts`: its classifiers by
  the places of observations and ports.
- `DetectorRuns`, `DetectorRecovery`, `DetectorRebinds`, `DetectorAllocation`: detections as runs, in which requests reach
  the NAT in any order and forwarders open and move meanwhile; when the detector recovers what was put into the
  simulator, and when it does not.
- `PortBlocks`, `PortBlockProgress`, `PortBlockFiles`: the reservation protocol as a system of any number of processes,
  its progress, and the script as one process runs it.
- `Prediction`: the predicted port windows, and which draws of the allocator they cover.
- `StunCodec`, `BitwiseXor`, `StunMessages`, `StunObjects`: the STUN encoder, decoder, request parsers and response
  builders (sections 6, 15 and 15.2 of RFC 5389).
- `RateLimit`, `ClientAddress`, `PairCache`, `EgressShim`, `MergeGate`, `MergeGateProperties`, `MergeGateLoop`.
  `MergeGateMeaning`: a pass, a wait and a report in terms of the listed runs and jobs.

## Findings

Some promises do not hold without a condition; the model keeps the code as it is and states the condition.

- A gate's finding is not the same for every order in which its runs are listed: the text names the event of the first
  run listed when no run is authoritative. The state, the deciding run and its words are the same;
  `FindingIgnoresOrderIff` says exactly when the whole finding is.
- The job cache is not refreshed when a completed run is run again: a job that passed, was run again and failed still
  passes its gate (`RerunIsStale`). `CacheIsFaithfulIff` says exactly when the cache is as good as none.
- "maxEvents requests per window" is a bound per bucket. Over an interval one window long the bound is twice the limit
  less one (`WindowBound`), and for every limit and window of two or more some history reaches it (`BoundIsReached`): a
  bucket begun early is spent in its last instant, and the sweep renews it in the next. The limit holds per interval
  exactly when it is at most one or the window at most one instant (`WithinLimitIff`).
- That a NAT's ports depend on nothing but its own clients and binds is so exactly in step mode or with no fault option
  on (`OwnIngressIsAllIff`). In random mode packet faults are drawn from the generator that ports come from, and one
  admitted datagram moves the next mapping (`AnswerMovesPort`).
- The detector recovers the mapping behaviour as long as none of the main socket's own mappings moves to another port
  between the answers it compares (`MappingRecovered`). An endpoint-independent NAT whose mapping moves once there is
  always misjudged (`EndpointIndependentIff`, with a whole detection in `RebindFoolsDetector`); however often it moves,
  the verdict follows from the ports at the three answers (`EndpointIndependentVerdict`). The filtering behaviour is
  recovered whatever moves (`FilteringRecovered`).
- The step of an address- and port-dependent linear NAT is recovered exactly when the probes arrive in the order they are
  sent in (`LinearStepRecovered`). For an address-dependent one it changes sign with the order and doubles when the
  second socket's probe falls between (`AddressDependentStep`).

Further results worth knowing: the prediction misses draws that wrap around the ring, except that a step of 1024 stands in
for port 0 just where the ring begins (`CoversIffUnwrapped`); a port block with more than 300 relays can never be
reserved, because one port is probed twice (`ManyRelaysNeverFit`); and the checker complains about initial noise exactly
when the clients asked for more than the budget holds (`CheckerVerdicts`).

## Model

| member | source | states |
|---|---|---|
| PortRing.FindUnusedIsFirst | scripts/nat-sim/nat_sim.py:418-425 | the search returns the first draw nobody uses, with the allocator advanced just past it; it raises exactly when all its draws are used |
| PortRing.StepAllocationComplete | scripts/nat-sim/nat_sim.py:406-425 | in step mode, for any signed step, allocation fails exactly when every ring port congruent to the next one modulo gcd(step, 64512) is used |
| PortRing.OneTurnIsPermutation | scripts/nat-sim/nat_sim.py:406-416 | when that gcd is 1, 64512 consecutive draws hit every port 1024..65535 exactly once |
| PortRing.PreviewIsPrefixOfFuture | scripts/nat-sim/nat_sim.py:427-448 | the look-ahead announces a prefix of the ports the allocator then hands out when each is marked used, in step and random mode |
| PortRing.StepPreviewIsFuture | scripts/nat-sim/nat_sim.py:427-448 | in step mode the look-ahead announces all of them: same ports, order and number |
| PortRing.ShortPreviewMeansExhausted | scripts/nat-sim/nat_sim.py:427-448 | in step mode a look-ahead that comes up short means that the allocation after the announced ports fails |
| NatTable.StepRebindNeverExhausts | scripts/nat-sim/nat_sim.py:492-497 | in step mode a rebind always finds a port |
| NatTable.ReassignKeeps | scripts/nat-sim/nat_sim.py:492-497 | a rebind, failed or not, keeps the table, index, port and budget invariants and moves no bound mapping |
| NatTable.BindKeeps | scripts/nat-sim/nat_sim.py:582-605 | a successful bind keeps the invariants and opens a port that had no forwarder |
| NatTable.ConsumeNoiseTakes | scripts/nat-sim/nat_sim.py:669-676 | noise changes only the allocator and the noise ports, and adds exactly as many ports as asked for unless allocation fails |
| NatTable.TranslateOutboundKeeps | scripts/nat-sim/nat_sim.py:642-667 | translating a datagram keeps the invariants, noise injection and a full queue included |
| NatTable.HandleStunRequestKeeps | scripts/nat-sim/nat_sim.py:607-623 | so does a STUN request |
| NatTable.CaptureEgressKeeps | scripts/nat-sim/nat_sim.py:183-201 | so does every datagram at the egress gateway |
| WorldSafety.StepKeeps | scripts/nat-sim/nat_sim.py:204-278 | every step of the two NATs keeps the world invariant: both tables, disjoint ownership, the recorded pairs, the provenance of every datagram in flight or delivered |
| WorldSafety.StepContinues | scripts/nat-sim/nat_sim.py:492-605 | no step forgets a mapping or a report, or moves a bound mapping to another port |
| WorldSafety.RunKeeps | scripts/nat-sim/nat_sim.py:204-278 | the same over whole runs |
| WorldSafety.TableInRuns | scripts/nat-sim/nat_sim.py:323-676 | in every run, rebinds included: the port index is the exact inverse of the live mappings, noise ports are disjoint from it, the noise ports and what is left of the two budgets add up, and each client's counter is the number of its non-observer mappings |
| WorldSafety.BoundPortsStay | scripts/nat-sim/nat_sim.py:582-605 | from any point of a run on, a bound mapping keeps its port |
| WorldSafety.ReportRecordsPair | scripts/nat-sim/nat_sim.py:242-256 | a first report adds the pair of every mutual mapping that includes the reported one, and no other |
| WorldSafety.StrictDeliveryIsMutual | scripts/nat-sim/nat_sim.py:678-709 | in every run, what a strictly filtering NAT delivers from the other NAT came over two mappings that target each other, is seen from the sender's public endpoint, and belongs to a recorded pair once the receiving mapping is reported |
| EvidenceRuns.CheckerVerdicts | scripts/nat-sim/mapping_evidence.py:83-113 | replaying any simulator trace never yields "reassigned"; without port exhaustion never the two noise-window errors or a passed sweep limit; and the two initial-noise errors exactly when the measured clients ask for more than the budget |
| EvidenceRuns.FewClientsAreClean | scripts/nat-sim/mapping_evidence.py:83-113 | with the options the simulator accepts, a trace of at most 64 such clients yields none of the noise or endpoint errors |
| EvidenceRuns.NoiseBudgetsInRuns | scripts/nat-sim/nat_sim.py:642-676 | for each noise budget by itself, in every run without a failed allocation: what the trace shows consumed at a stage and what is left make up the budget; and initial noise is the smaller of the budget and what the measured clients ask for |
| PairRecount.RecountIsIncremental | scripts/nat-sim/mapping_evidence.py:141-142 | the checker's recount never exceeds the simulator's set of pairs, and equals its size once every bound mapping is reported, in whatever order |
| PairRecount.RunRecount | scripts/nat-sim/mapping_evidence.py:106-142 | the same on every run |
| PairRecount.StrictDirectLeavesAPair | scripts/nat-sim/run-hard-hard-matrix.py:869-871 | the matrix's rule: a strictly filtered direct delivery leaves at least one recounted pair |
| EvidenceReplay.Notes.StartedRow | scripts/nat-sim/mapping_evidence.py:98-105 | a first-peer row updates the notes and the two initial-noise errors as the ledger function does |
| EvidenceReplay.Notes.InitialNoiseRow | scripts/nat-sim/mapping_evidence.py:85-94 | a noise row outside the measurement-to-peer window is an error; each is counted and the first remembered |
| EvidenceReplay.Notes.OtherRow | scripts/nat-sim/mapping_evidence.py:71-115 | the remaining rows update the endpoint table, the capture counters and the rejections as the ledger function does |
| EvidenceReplay.Close | scripts/nat-sim/mapping_evidence.py:118-140 | the findings after the last row: missing captures or counters, counts that differ, noise that was never injected or beyond its limit, rejections |
| EvidenceReplay.Summarize | scripts/nat-sim/mapping_evidence.py:51-157 | the replay computes both NATs' ledgers, the closing findings and the number of A's endpoints whose destination points back; the round is valid exactly when on neither side anything happens in the rows or is lacking beside them that a finding stands for |
| EvidenceReplay.ClosingMeans | scripts/nat-sim/mapping_evidence.py:118-140 | each closing finding is made exactly when captures, readable counters that equal the rows' number and bytes, noise, its limit or an unbroken queue is lacking, counted in rows |
| EvidenceFindings.CountersAreCounts | scripts/nat-sim/mapping_evidence.py:71-115 | the counters are the numbers of rows of each kind, and the sum of their bytes, on every trace |
| EvidenceFindings.FindingsHappen | scripts/nat-sim/mapping_evidence.py:83-113 | on every trace each of the five findings is made exactly when it happens in some row: noise before a measurement or after the first peer, sweep noise of a client without mappings, a first peer after the wrong amount of noise or after noise that a measurement followed, an endpoint bound towards another destination |
| EvidenceFindings.TableIsLatest | scripts/nat-sim/mapping_evidence.py:106-113 | the endpoint table holds each endpoint's latest destination |
| EvidenceLoss.LossIsReportedIff | scripts/nat-sim/mapping_evidence.py:122-129 | with rows from the frames that arrived and counters of the shim that sent them, a loss or duplicate is reported exactly when not every frame arrived and was taken |
| EvidenceLoss.SoundLosesNothing | scripts/nat-sim/mapping_evidence.py:118-147 | so a round found valid lost nothing on the way to its gateways |
| EvidenceReplay.ClosingVerdicts | scripts/nat-sim/mapping_evidence.py:132-138 | on a simulator trace without a failed allocation the sweep limit is never reported as exceeded, and initial noise as not exercised exactly when no measured client opened a mapping |
| EvidenceReplay.SummaryMeetsSimulator | scripts/nat-sim/mapping_evidence.py:141-142 | on a trace of a run in which all bound mappings are reported, that number is the number of reciprocal pairs, and positive after a strictly filtered delivery |
| NonInterference.OwnIngressDecides | scripts/nat-sim/nat_sim.py:642-676 | for any two runs with the same own ingress and bind outcomes for a NAT, in step mode or with no fault option on, its mappings, ports, noise ports and counters agree, whatever the gates, blackhole, filtering and the other NAT do, and in step mode whatever loss, reordering and duplication do |
| SharedGenerator.AnswerMovesPort | scripts/nat-sim/nat_sim.py:767-780 | in random mode with any fault option on, of two runs from one start that differ in one admitted datagram the second client's mapping gets different ports |
| SharedGenerator.OwnIngressIsAllIff | scripts/nat-sim/nat_sim.py:406-416 | so own ingress and bind outcomes decide exactly in step mode or with no fault option on |
| NatObjects.Nat.AllocPort | scripts/nat-sim/nat_sim.py:406-416 | one draw, in place |
| NatObjects.Nat.AllocateUnusedPort | scripts/nat-sim/nat_sim.py:418-425 | the allocation loop, in place: the first unused draw, or the exhausted state |
| NatObjects.Nat.PreviewUnusedPorts | scripts/nat-sim/nat_sim.py:427-448 | the look-ahead changes no field and returns a prefix of the allocator's future, all of it in step mode |
| NatObjects.Nat.Reassign | scripts/nat-sim/nat_sim.py:492-497 | the rebind, in place |
| NatObjects.Nat.GetMapping | scripts/nat-sim/nat_sim.py:502-523 | lookup or allocation of a mapping, with its index entry and trace row |
| NatObjects.Nat.Bind | scripts/nat-sim/nat_sim.py:582-605 | the turn of the bind loop that opens the socket |
| NatObjects.Nat.AnswerStun | scripts/nat-sim/nat_sim.py:607-623 | measurement counter, mapping and trace row of a STUN request |
| NatObjects.Nat.OpenPeerMapping | scripts/nat-sim/nat_sim.py:642-658 | noise that is due, its budget and the peer counter, in place |
| NatObjects.Nat.SendOutbound | scripts/nat-sim/nat_sim.py:642-667 | translation of one datagram into a bounded queue |
| NatObjects.Nat.InjectPorts | scripts/nat-sim/nat_sim.py:669-676 | the noise loop, in place |
| NatObjects.Nat.ReceiveEgress | scripts/nat-sim/nat_sim.py:183-201 | the gateway's dispatch between observers and translation |
| NatObjects.Nat.DrawPacketFaults | scripts/nat-sim/nat_sim.py:767-780 | loss, reordering and duplication draws, each made only when its option is on |
| NatObjects.NatFabric.ReportMappingBound | scripts/nat-sim/nat_sim.py:242-256 | one report per mapping, and its reciprocal pair |
| NatObjects.NatFabric.AllowsInbound | scripts/nat-sim/nat_sim.py:696-709 | endpoint-dependent filtering, and the relaxed rule |
| NatObjects.NatFabric.ReceivePublic | scripts/nat-sim/nat_sim.py:711-836 | filtering, faults and delivery of one public datagram |
| NatObjects.NatFabric.RouteTranslatedDatagram | scripts/nat-sim/nat_sim.py:220-240 | gates of both sides, the owner of the destination, or an unmapped destination |
| NatObjects.NatFabric.HandOver | scripts/nat-sim/nat_sim.py:838-875 | the source address the client sees |
| NatObjects.NatFabric.FlushOne | scripts/nat-sim/nat_sim.py:678-694 | one turn of the flush loop is one step of the world |
| DirectTraffic.FlushOutcome | scripts/nat-sim/nat_sim.py:220-240 | in every reachable world, from the options, the gate files and the tables alone: a queued datagram is dropped by its sender's block or gate, unmapped, dropped by the receiver's, dropped by the filter, or admitted with the fate that the receiver's coins give it; which row is written, and that nothing else changes |
| DirectTraffic.ShutDrops | scripts/nat-sim/nat_sim.py:223-236 | if either side blocks, or is gated with its gate file absent, nothing is handed over or kept for later |
| DirectTraffic.HandedIff | scripts/nat-sim/nat_sim.py:678-709 | with no fault option on, a queued datagram is handed to the peer's client, seen from the sender's public endpoint, exactly when neither side is shut, the destination is a bound endpoint of the peer, and its mapping points back or is not strictly filtered |
| DirectTraffic.AdmitPasses | scripts/nat-sim/nat_sim.py:767-836 | an admitted datagram is lost, put off or doubled exactly as the coins of the receiver's generator say, each taken only when its option is on, and its copies are handed over or kept |
| DirectTraffic.ArriveOutcome | scripts/nat-sim/nat_sim.py:696-765 | a stranger's datagram is admitted exactly when it comes from where the port's mapping points, and is seen from that mapping's own public endpoint |
| DirectTraffic.LandOutcome | scripts/nat-sim/nat_sim.py:838-886 | what was put off is handed over once, and a routed datagram still seen from its sender |
| ClientTraffic.StunAnswers | scripts/nat-sim/nat_sim.py:607-623 | a measurement is counted and answered with the public endpoint of the client's mapping for that observer: the one there was, or a new one on the first free of 64512 draws; it raises exactly when there is none |
| ClientTraffic.KnownPeerQueues | scripts/nat-sim/nat_sim.py:642-667 | over a mapping that is there a datagram is queued last, or rejected when 256 are waiting, and nothing is allocated |
| ClientTraffic.NewPeerOpens | scripts/nat-sim/nat_sim.py:642-676 | to a new peer: the noise that is due at the cost of its budget, the row and count of one more mapping, the mapping on the first free port, the datagram alone in its queue, in this order |
| ClientTraffic.EgressGoes | scripts/nat-sim/nat_sim.py:183-201 | every datagram is noted with its size and goes to the observer it names, if it is a request, or else to a peer |
| SweepNoise.SweepNoiseInRuns | scripts/nat-sim/nat_sim.py:642-676 | in every run without a failed allocation: each client's mappings are numbered as it opens them, of k mappings (k - 1) / every were due for sweep noise, and the sweep noise in the trace is what the due mappings of all clients ask for, up to the limit |
| NatObjects.Assemble | scripts/nat-sim/nat_sim.py:929-977 | both NATs on one fabric and trace are a starting world, and are refused exactly when an option of either is |
| SimNat.HandleStunKeeps | scripts/punch-research/nat_sim.py:277-356 | a request keeps the table and its index inverse, moves no mapping, and is answered with its mapping's port |
| SimNat.DistinctPorts | scripts/punch-research/nat_sim.py:254-294 | distinct mappings never share a port |
| SimNat.SearchTakesFirst | scripts/punch-research/nat_sim.py:254-266 | a mapping gets the first draw, linear or random, that is no observer's port, nobody's mapping and no open forwarder; there is none exactly when every draw is one of those |
| SimNat.ChangePartners | scripts/punch-research/nat_sim.py:358-368 | a change request is answered from an observer with another address, or with the same address and another port, as its mask asks |
| SimNatObjects.Nat.RawAllocFree | scripts/punch-research/nat_sim.py:254-266 | the draw loop, linear and random, in place |
| SimNatObjects.Nat.GetMapping | scripts/punch-research/nat_sim.py:277-295 | lookup updates the latest destination; a new mapping takes a free port |
| SimNatObjects.Nat.Stun | scripts/punch-research/nat_sim.py:333-368 | the reply, from the changed source if the filter lets it through |
| Detector.Classify | scripts/punch-research/puncher.py:239-308 | the mapping classifier over its dictionary of groups, in place |
| Detector.ClassifyPorts | scripts/punch-research/puncher.py:313-328 | the allocation classifier: differences, their counter, the first most common one |
| DetectorVerdicts.AllocationVerdict | scripts/punch-research/puncher.py:313-328 | stable exactly when no two ports differ, linear with x exactly when they go on by x, not 0, at least three in five times, and random exactly when two differ and there is no such x |
| DetectorVerdicts.FewAnswers | scripts/punch-research/puncher.py:258-266 | fewer than three answers decide nothing |
| DetectorVerdicts.ReportedAllocation | scripts/punch-research/puncher.py:686-709 | the same of every detection: what it reports of the allocation is so of the ports it reports |
| DetectorVerdicts.MappingVerdict | scripts/punch-research/puncher.py:239-308 | the mapping verdict by places: which observation the others are compared with, and what a difference in each group is taken for |
| Detector.CollectObservations | scripts/punch-research/puncher.py:649-682 | the observation loop over the shared dictionary, in which both main-target probes have one slot |
| DetectorRuns.RebindElsewhere | scripts/punch-research/nat_sim.py:297-314 | other clients' rebinds leave the detector's mappings alone |
| DetectorRuns.BindElsewhere | scripts/punch-research/nat_sim.py:297-305 | so does the opening of any forwarder, its own included |
| DetectorRecovery.ProbeIsAnswered | scripts/punch-research/puncher.py:649-682 | for every NAT state and order of arrival, each probe of the first batch is answered with the port its mapping then has |
| DetectorRecovery.ProfileParts | scripts/punch-research/puncher.py:649-682 | the five observations in terms of the answers heard, and the mapping verdict in terms of the answers to the second, third and fourth probe |
| DetectorRecovery.MappingRecovered | scripts/punch-research/puncher.py:640-684 | detection returns the injected mapping behaviour, for every prior state and order of arrival, while other clients' mappings and forwarders come and move, as long as the main socket's mappings do not move between the answers compared |
| DetectorRecovery.EndpointIndependentIff | scripts/punch-research/nat_sim.py:297-314 | an endpoint-independent NAT whose mapping moves at most once between those answers is recognised exactly when it does not move there |
| DetectorRecovery.EndpointIndependentVerdict | scripts/punch-research/puncher.py:239-308 | however often it moves, the verdict is the one that its ports at the three answers call for |
| DetectorRecovery.FilteringRecovered | scripts/punch-research/puncher.py:711-742 | detection returns the injected filtering behaviour, with no filter reported as endpoint-independent, whatever moves meanwhile, the detector's own mappings included |
| DetectorRebinds.RebindMovesAnswer | scripts/punch-research/nat_sim.py:297-314 | a forwarder that finds its port busy between two probes changes the answer of an endpoint-independent NAT |
| DetectorRebinds.RebindFoolsDetector | scripts/punch-research/nat_sim.py:297-314 | from every state in which both sockets are mapped and the main one's port is not open yet, some whole detection reports an endpoint-independent NAT as address- and port-dependent |
| DetectorAllocation.EndpointIndependentIsStable | scripts/punch-research/puncher.py:686-709 | an endpoint-independent NAT whose mapping does not move between the answers compared is reported stable with step 0 |
| DetectorAllocation.AddressDependentIsReportedLinear | scripts/punch-research/puncher.py:686-709 | whatever its allocation, an address-dependent NAT whose two mappings for the main socket stay at their ports is reported linear, with their difference as the step |
| DetectorAllocation.BindIsQuiet | scripts/punch-research/nat_sim.py:297-305 | a forwarder that opens draws nothing and moves nothing, so it may open between the probes |
| DetectorAllocation.LinearStepRecovered | scripts/punch-research/puncher.py:686-709 | with the next six ports on the ring and free, and no other mapping made meanwhile, an address- and port-dependent linear NAT is reported linear with its true step exactly when the main socket's probes arrive in order, wherever the second socket's probe falls and whichever forwarders open |
| DetectorAllocation.AddressDependentStep | scripts/punch-research/puncher.py:686-709 | for an address-dependent one, for every order of arrival: the step has the sign of the order in which the two addresses come, and is doubled exactly when the second socket's probe falls between |
| PortBlocks.ActIsOwn | scripts/nat-sim/reserve_port_block.py:46-109 | one atomic action changes the directories by exactly what it changes in the actor's own holdings |
| PortBlocks.StepKeeps | scripts/nat-sim/reserve_port_block.py:46-109 | any action of any process keeps mutual exclusion and conservation |
| PortBlocks.LiveBlocksAreDisjoint | scripts/nat-sim/reserve_port_block.py:62-109 | under every interleaving of any number of processes, live reservations have disjoint port sets, all in 1024..65535 and all locked |
| PortBlocks.NothingLeftBehind | scripts/nat-sim/reserve_port_block.py:46-109 | the lock root holds what was there before and, disjointly, what processes hold; when all rest, exactly what was there, manifests included |
| PortBlocks.RemovalsSucceed | scripts/nat-sim/reserve_port_block.py:46-107 | every directory removed while rolling back or releasing exists, is the remover's own and is empty |
| PortBlocks.OthersCannotDisturb | scripts/nat-sim/reserve_port_block.py:46-109 | while a process does not act, no run of the others takes its state, directories or manifest away |
| PortBlocks.SomeContenderWins | scripts/nat-sim/reserve_port_block.py:81-91 | ascending order: among contenders one always finds that none of the others has its next port |
| PortBlockProgress.EveryProcessEnds | scripts/nat-sim/reserve_port_block.py:62-109 | in every interleaving a process has a block and has given it back, or has given up, after a bounded number of its own turns |
| PortBlockProgress.EverythingIsCleanedUp | scripts/nat-sim/reserve_port_block.py:46-109 | and once all have had their turns, directories and manifests are what they were |
| PortBlockProgress.TriesItsSlots | scripts/nat-sim/reserve_port_block.py:71-72 | in every interleaving each process tries, in each attempt, the slot that is that much further than its seed |
| PortBlockProgress.EverySlotOnce | scripts/nat-sim/reserve_port_block.py:71-72 | every slot has its attempt |
| PortBlockProgress.GivesUpAtTheEnd | scripts/nat-sim/reserve_port_block.py:62-109 | a process whose probes and manifests succeed gives up only after its last attempt |
| PortBlockProgress.TwoTurnsToHold | scripts/nat-sim/reserve_port_block.py:92-97 | with all its locks made, a process holds its block after the probe and the manifest, which lists all of it |
| PortBlockProgress.UnboundNeverHolds | scripts/nat-sim/reserve_port_block.py:92-106 | one whose probes fail never has a block |
| PortBlockProgress.UnwritableGivesUp | scripts/nat-sim/reserve_port_block.py:98-103 | one that cannot write its manifest rolls back and makes no other attempt |
| PortBlockFiles.PortsAreAvailable | scripts/nat-sim/reserve_port_block.py:30-43 | the probe succeeds exactly when no port is taken elsewhere and none is asked for twice |
| PortBlockFiles.LockRoot.AcquirePorts | scripts/nat-sim/reserve_port_block.py:81-87 | locks a prefix of the ports, all of them or up to the first that is taken |
| PortBlockFiles.LockRoot.RollBack | scripts/nat-sim/reserve_port_block.py:87-91 | removes the locks and the reservation |
| PortBlockFiles.LockRoot.TryBlock | scripts/nat-sim/reserve_port_block.py:71-106 | one attempt takes the whole block or leaves every directory as it was |
| PortBlockFiles.LockRoot.ReservePortBlock | scripts/nat-sim/reserve_port_block.py:62-109 | takes the block at base + k * stride for the vacant slot k that comes first when counting round from the seed, with exactly its locks; none exactly when no slot below the number of slots is vacant |
| PortBlockFiles.UsableIsVacant | scripts/nat-sim/reserve_port_block.py:18-97 | a candidate can be had exactly when nobody has reserved it and each of its ports is between 1024 and 65535, not locked, not in use and asked for once |
| PortBlockFiles.LockRoot.ReleasePortBlock | scripts/nat-sim/reserve_port_block.py:46-59 | removes the listed locks, the manifest and the reservation |
| PortBlockFiles.ReleaseUndoesReserve | scripts/nat-sim/reserve_port_block.py:46-97 | releasing what was reserved restores directories and manifests |
| PortBlockFiles.BlockIsDistinct | scripts/nat-sim/reserve_port_block.py:18-27 | the ports of a block are distinct exactly up to 300 relays |
| PortBlockFiles.ManyRelaysNeverFit | scripts/nat-sim/reserve_port_block.py:18-43 | with more than 300 relays no block is ever usable; otherwise an idle host can use exactly those that fit the port range |
| Prediction.PredictPorts | scripts/punch-research/predict.py:34-54 | strictly descending, and exactly the wrapped points of the window that are not excluded |
| Prediction.PredictNearby | scripts/punch-research/puncher.py:332-357 | both directions without repetition, or forward only from the farthest |
| Prediction.SamePrediction | scripts/punch-research/predict.py:34-54 | with one window per side the two predictions are the same set exactly when at least one port is asked for |
| Prediction.WindowSize | scripts/punch-research/predict.py:57-64 | for a window that does not overlap itself, the number of points is the interval's count, less one exactly when a point other than the nearest below or farthest above falls on port 0 |
| Prediction.DescendingLength | scripts/punch-research/predict.py:54 | the returned list has one entry per point |
| Prediction.PredictionCoversDraws | scripts/punch-research/predict.py:34-54 | if the allocator's ring does not wrap within the window, every port drawn after the base lies in the prediction, for either sign of step |
| Prediction.DrawIsCoveredIff | scripts/nat-sim/nat_sim.py:406-416 | for every window, step and number of wraps, exactly which draws are predicted: those whose distance from some point is the wraps' 1024 ports, or that are the step where a point falls on port 0 |
| Prediction.CoversIffUnwrapped | scripts/nat-sim/nat_sim.py:406-416 | for a window of less than half the ring the prediction covers all its draws exactly when the ring does not wrap, or the step is 1024 and only the last draw wraps |
| StunMessages.RoundTrip | scripts/punch-research/puncher.py:127-153 | decoding an encoded message gives it back, attributes in order, exactly when its transaction has 12 bytes |
| StunMessages.EncodableIff | scripts/punch-research/puncher.py:127-138 | encoding fails exactly when the type, an attribute or the body does not fit its 16-bit field |
| StunMessages.XorMappedRoundTrip | scripts/punch-research/puncher.py:155-166 | every 16-bit port and 32-bit address that is set as XOR-MAPPED-ADDRESS is read back |
| StunMessages.ChangeRequestRoundTrip | scripts/punch-research/puncher.py:168-174 | so is every change request |
| StunMessages.StrictIsLenientAndExact | scripts/nat-sim/nat_sim.py:104-115 | the strict parser accepts what the lenient one does minus datagrams whose length field is unaligned or inexact, with the same transaction |
| StunMessages.EncodedRequestIsUnderstood | scripts/punch-research/nat_sim.py:64-82 | both parsers return the transaction of every encoded Binding Request, the lenient one its change mask |
| StunMessages.ResponsesAgree | scripts/nat-sim/nat_sim.py:118-126 | the three response builders and the puncher's encoder produce the same bytes, which decode to the transaction, address and port given |
| StunMessages.XorWordByByte | scripts/punch-research/nat_sim.py:85-90 | exclusive-oring the address byte by byte is exclusive-oring the word |
| StunMessages.ResponseBytesAre | scripts/nat-sim/nat_sim.py:118-126 | a response byte by byte |
| StunMessages.EncodedHeader | scripts/punch-research/puncher.py:127-138 | whatever is encoded begins with its type, the length of what follows the header, the cookie and the transaction |
| BitwiseXor.XorUndoes | scripts/punch-research/puncher.py:155-166 | applying the same mask twice gives the number back |
| BitwiseXor.XorIsBitwise | scripts/punch-research/puncher.py:155-166 | a bit is set exactly when it is set in one of the two numbers only |
| StunObjects.StunMsg.Add | scripts/punch-research/puncher.py:124-125 | a kind that is there keeps its place |
| StunObjects.StunMsg.ToBytes | scripts/punch-research/puncher.py:127-138 | the encoding loop, padding included |
| StunObjects.FromBytes | scripts/punch-research/puncher.py:140-153 | the decoding loop, truncation included |
| StunObjects.ReadRequest | scripts/punch-research/nat_sim.py:64-82 | the lenient parsing loop: the last long enough change request wins |
| StunObjects.ReadBinding | scripts/punch-research/mock_stun.py:35-54 | the mock server's parsing loop agrees with it |
| StunObjects.ProbeRequest | scripts/punch-research/puncher.py:599-601 | both parsers read the transaction of every detection probe, the lenient one the change it asks for |
| StunObjects.PunchMessage | scripts/punch-research/puncher.py:1167-1181 | whoever decodes a punch packet reads back public endpoint, step and port as 16-bit words, and the mark |
| RateLimit.RateLimiter.Handle | server/main.go:279-305 | sweep, renewal, count and decision, in place |
| RateLimit.RateLimiter.DeleteExpired | server/main.go:283-288 | the sweep deletes exactly the buckets whose time is up |
| RateLimit.BucketBound | server/main.go:268-305 | for any history under a non-decreasing clock, no bucket lets more than the limit through, sweeps included |
| RateLimit.WindowBound | server/main.go:268-305 | in any half-open interval one window long, at most twice the limit less one gets through per address (none for a limit below one) |
| RateLimit.BoundIsReached | server/main.go:279-305 | for every limit and window of two or more a history reaches that bound, because the sweep renews a bucket that a request would still draw on |
| RateLimit.WithinLimitIff | server/main.go:266-268 | the limit holds in every such interval of every history exactly when it is at most one or the window at most one instant |
| RateLimit.NoStaleBuckets | server/main.go:283-290 | after a sweep no expired bucket is left, and none ever outlives its time by a window |
| RateLimit.NothingSweptEarly | server/main.go:283-290 | until a window has passed nothing is swept |
| ClientAddress.ClientIp | server/main.go:328-357 | the address a request is counted under: the peer, or the nearest forwarded hop no trusted proxy vouches past, and the peer when there is none |
| ClientAddress.LeftmostCannotOverride | server/main.go:347-355 | whatever a client writes to the left of the hop that trusted proxies appended, that hop counts |
| PairCache.CacheFile.Save | scripts/punch-research/puncher.py:1353-1375 | the new pair first, the address's old one gone, five kept; a failed write changes nothing |
| PairCache.CacheFile.Load | scripts/punch-research/puncher.py:1331-1351 | the first entry of the address, unless expired |
| PairCache.AfterIsNewestFirst | scripts/punch-research/puncher.py:1353-1375 | after any save history the file is the history read backwards, each address once, cut after five |
| PairCache.CacheHoldsNewestFive | scripts/punch-research/puncher.py:470-479 | the latest pair of an address stands at the place given by the number of other addresses saved since, and is gone exactly when that is five or more |
| PairCache.LookupGivesLatest | scripts/punch-research/puncher.py:1331-1351 | a lookup gives the port numbers of the range last saved for the address exactly when fewer than five other addresses were saved since and the entry is no older than its time to live, or has no time |
| PairCache.StrangersGetNoHint | scripts/punch-research/puncher.py:1331-1351 | an address that was never saved gets nothing |
| PairCache.PredictedRangeIsUsable | scripts/punch-research/puncher.py:1344-1345 | a range predicted with a 16-bit step is given back whole |
| EgressShim.Flatten | scripts/nat-sim/udp_egress_shim.c:137-157 | the copying loop never leaves the buffer and yields the concatenation of the segments, or the first error |
| EgressShim.FlattenErrorNone | scripts/nat-sim/udp_egress_shim.c:147-153 | it succeeds exactly when no non-empty segment is null and the total fits |
| EgressShim.FrameBytes | scripts/nat-sim/udp_egress_shim.c:111-118 | a frame byte by byte: the mark, the address, port and length with the high byte first, the payload |
| EgressShim.FrameIsRecovered | scripts/nat-sim/udp_egress_shim.c:101-134 | the gateway recovers destination and payload of every framed send, except one to port 0, which it rejects |
| EgressShim.CapturedIsFrame | scripts/nat-sim/nat_sim.py:183-194 | and nothing but that frame is read as one |
| EgressShim.Shim.SendTo | scripts/nat-sim/udp_egress_shim.c:101-134 | every outcome in the order of its checks, and counters that count exactly the frames the system took whole |
| EgressShim.EqualCountsLoseNothing | scripts/nat-sim/mapping_evidence.py:122-129 | on a channel that can lose and reorder frames but adds none, equal counts mean that every frame arrived and was captured |
| MergeGate.NewestFirstKeeps | scripts/quality/check_required_gates.py:179-183 | the sort keeps every run and puts none before a newer one |
| MergeGateProperties.StateIgnoresOrder | scripts/quality/check_required_gates.py:152-200 | for runs with distinct ids the state, the deciding run and what it said are the same in every order of listing |
| MergeGateProperties.FindingIgnoresOrderIff | scripts/quality/check_required_gates.py:173-184 | the whole finding is, exactly when there is an authoritative run or all candidates have one event |
| MergeGateProperties.OthersAreNotHeard | scripts/quality/check_required_gates.py:173-177 | once there is an authoritative run, scheduled and dispatched runs change nothing, wherever they are listed |
| MergeGateMeaning.GateReports | scripts/quality/check_required_gates.py:152-200 | what a gate reports, over run and job fields: the run that decides, which is the first in order of those that stand in the way or else of all, its own state, and whose word it is |
| MergeGateMeaning.PassIff | scripts/quality/check_required_gates.py:121-200 | a gate passes exactly when some run is consulted, none of them was cancelled, lists the job twice or lists it as completed with another conclusion than success, and the newest lists it once, completed with success; and is pending exactly when instead the newest has not got to the job yet |
| MergeGateProperties.NewestIsNewest | scripts/quality/check_required_gates.py:106-107 | no considered run is newer than that one |
| MergeGateMeaning.ExitZeroIff | scripts/quality/check_required_gates.py:203-225 | a poll authorises the merge exactly when that holds for every required gate, and there is one |
| MergeGateMeaning.WaitsIff | scripts/quality/check_required_gates.py:209-225 | the loop waits exactly while every gate passes or is pending, one is pending and the deadline has not passed |
| MergeGateLoop.RunGate | scripts/quality/check_required_gates.py:348-408 | exit 2 for a bad invocation, 1 when no client can be made, otherwise what the first deciding poll decides |
| MergeGateLoop.LoopSucceedsIff | scripts/quality/check_required_gates.py:376-408 | the loop succeeds exactly when some poll authorises and all earlier ones say to wait |
| MergeGateLoop.GitHubClient.Jobs | scripts/quality/check_required_gates.py:284-300 | a read through the cache, which only completed runs enter |
| MergeGateLoop.CacheIsFaithfulIff | scripts/quality/check_required_gates.py:284-300 | the cache agrees with uncached reads exactly when completed runs stay as they were |
| MergeGateLoop.RerunIsStale | scripts/quality/check_required_gates.py:284-300 | a job that passed, was run again and failed still passes its gate |

## Left out

- Sockets, event loop and threads: every await is a step boundary, a bind is an outcome of the environment, and time and
  random draws are input streams. A bind error other than a busy port is not modelled.
- Preview listeners that race a bind (`unassigned_egress_listeners` above 0), termination of the rebind loop, and the
  generator's `observed_sequence`.
- Mapping objects are values named by their (client, destination) key; `Nat` and `NatFabric` hold them in maps.
- Formatting of addresses and the content of delayed replies; the trace rows keep structured fields.
- A registered client's datagram that reaches a public socket without passing the shim: the shim captures them all.
- After a failed allocation the simulator is modelled up to the raised exception; budgets are claimed only before it.
- The checker's file handling, the feature banner and rows that are not well formed; a gateway and the counters of a shim
  are given as read.
- `stable` allocation in the research simulator, where keys share a port. In a detection replies that the NAT admits
  arrive, and no request finds the pool exhausted; nobody but the NAT's own rebinds moves the detector's mappings.
- The detector's confidence is a real quotient; its logging and its TCP and firewall probes are not modelled.
- A manifest that is written in part before the write fails, and a lock root that somebody else edits.
- BucketBound: a bucket is identified by the time it began, so the window is positive, as it is at every call.
- Rate limiting is modelled in lock order under a non-decreasing clock.
- ClientAddress.ClientIp: parsing of addresses and networks and trimming of hops are parameters: a hop is given as the
  address it parses to, if any.
- Prediction.CoversIffUnwrapped: windows that take half the ring or more overlap themselves; for them the condition is
  stated draw by draw, in DrawIsCoveredIff.
- A process of the port-block protocol that dies half way, and so never gives its directories back.
- Unreadable cache files, and entries that somebody else wrote into them.
- `StepLearner`, `ReverseDetector`, birthday pools, budget scans, strategies, keepalive and signalling of the puncher.
- GitHub paging, retries and HTTP; a poll either fails or lists runs. Statuses and conclusions are strings as listed.
- Wrap-around of the shim's 64-bit counters.
- The Rust daemon, the server's HTTP routes and the client applications.
