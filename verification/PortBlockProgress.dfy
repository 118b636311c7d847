/** Progress: no process waits for another, and so a bounded number of its own turns ends it, whatever the others do. */
module PortBlockProgress {
  import opened PortBlocks
  import opened PortBlockFiles

  /** More turns than one attempt can take. */
  function PerAttempt(o: Options): nat {
    4 * o.relayCount + 13
  }

  /** The turns left for the attempts from `attempt` on. */
  function Attempts(o: Options, attempt: nat): nat {
    if attempt >= o.slots then 1 else (o.slots - attempt) * PerAttempt(o) + 1
  }

  /** At most so many turns of its own does a process have before it. */
  function TurnsLeft(p: Process): nat {
    var later := Attempts(p.options, p.attempt + 1);
    match p.phase
    case Choosing => Attempts(p.options, p.attempt)
    case Locking(_, todo, acquired) => later + |acquired| + 2 * |todo| + 6
    case Probing(_, acquired) => later + |acquired| + 5
    case Listing(_, acquired) => later + |acquired| + 4
    case RollingBack(_, acquired, _) => later + |acquired| + 1
    case Holding(_, acquired) => |acquired| + 3
    case Releasing(_, todo) => |todo| + 2
    case Closing(_) => 1
    case Finished => 0
    case Failed => 0
  }

  predicate Ended(p: Process) {
    p.phase.Finished? || p.phase.Failed?
  }

  lemma {:induction false} InsertSize(x: int, s: seq<int>)
    requires Ascending(s)
    ensures |Insert(x, s)| <= |s| + 1
    decreases |s|
  {
    if s != [] && x > s[0] {
      InsertSize(x, s[1..]);
    }
  }

  lemma {:induction false} SortedSetSize(s: seq<int>)
    ensures |SortedSet(s)| <= |s|
    decreases |s|
  {
    if s != [] {
      SortedSetSize(s[1..]);
      InsertSize(s[0], SortedSet(s[1..]));
    }
  }

  lemma BlockSize(base: int, relayCount: nat)
    ensures |BlockPorts(base, relayCount)| <= 2 * relayCount + 3
  {
    SortedSetSize(RequiredPorts(base, relayCount));
  }

  lemma AttemptCosts(o: Options, attempt: nat)
    requires attempt < o.slots
    ensures Attempts(o, attempt) >= Attempts(o, attempt + 1) + PerAttempt(o)
  {
    var left := o.slots - attempt;
    assert left * PerAttempt(o) == (left - 1) * PerAttempt(o) + PerAttempt(o);
  }

  /** Every turn of its own brings a process nearer to its end. */
  lemma ActAdvances(dirs: set<Lock>, manifests: map<int, seq<int>>, p: Process, choice: Choice)
    requires Listed(p, manifests) && !Ended(p)
    ensures TurnsLeft(Act(dirs, manifests, p, choice).2) < TurnsLeft(p)
  {
    match p.phase
    case Choosing =>
      if p.attempt < p.options.slots {
        AttemptCosts(p.options, p.attempt);
        BlockSize(Candidate(p.options, p.attempt), p.options.relayCount);
      }
      hide BlockPorts, InRange, Candidate, Attempts;
    case _ => hide Attempts;
  }

  function OwnTurns(schedule: seq<Turn>, i: nat): nat
    decreases |schedule|
  {
    if schedule == [] then 0 else (if schedule[0].who == i then 1 else 0) + OwnTurns(schedule[1..], i)
  }

  lemma {:induction false} TurnsRunOut(s: System, was: Residue, schedule: seq<Turn>, i: nat)
    requires Inv(s, was) && i in s.procs
    ensures var t := Run(s, schedule);
      && i in t.procs
      && (Ended(t.procs[i]) || TurnsLeft(t.procs[i]) + OwnTurns(schedule, i) <= TurnsLeft(s.procs[i]))
    decreases |schedule|
  {
    if schedule != [] {
      var turn := schedule[0];
      if turn.who in s.procs {
        StepKeeps(s, was, turn.who, turn.choice);
        var s' := Step(s, turn.who, turn.choice);
        TurnsRunOut(s', was, schedule[1..], i);
        if turn.who == i {
          StaysEnded(s, schedule, i);
          if !Ended(s.procs[i]) { ActAdvances(s.dirs, s.manifests, s.procs[i], turn.choice); }
        }
        hide TurnsLeft, Inv, Act;
      } else {
        TurnsRunOut(s, was, schedule[1..], i);
      }
    }
  }

  lemma {:induction false} StaysEnded(s: System, schedule: seq<Turn>, i: nat)
    requires i in s.procs
    ensures i in Run(s, schedule).procs && (Ended(s.procs[i]) ==> Run(s, schedule).procs[i] == s.procs[i])
    decreases |schedule|
  {
    if schedule != [] {
      var turn := schedule[0];
      StaysEnded(if turn.who in s.procs then Step(s, turn.who, turn.choice) else s, schedule[1..], i);
    }
  }

  /** No process can be kept from ending: it has given up or is done after so many turns of its own. */
  lemma EveryProcessEnds(s: System, was: Residue, schedule: seq<Turn>, i: nat)
    requires Begins(s, was) && i in s.procs && OwnTurns(schedule, i) >= Attempts(s.procs[i].options, 0)
    ensures i in Run(s, schedule).procs && Ended(Run(s, schedule).procs[i])
  {
    ReachableInv(s, was, []);
    assert Run(s, []) == s;
    TurnsRunOut(s, was, schedule, i);
    hide Run, Inv, Begins;
    assert TurnsLeft(Run(s, schedule).procs[i]) == 0 || Ended(Run(s, schedule).procs[i]);
  }

  /** And once every process has had its turns, the lock root is what it was. */
  lemma EverythingIsCleanedUp(s: System, was: Residue, schedule: seq<Turn>)
    requires Begins(s, was) && forall i | i in s.procs :: OwnTurns(schedule, i) >= Attempts(s.procs[i].options, 0)
    ensures Run(s, schedule).dirs == was.dirs && Run(s, schedule).manifests == was.manifests
  {
    RunKeepsProcesses(s, schedule);
    hide Attempts, Run;
    forall i | i in s.procs ensures Ended(Run(s, schedule).procs[i]) {
      EveryProcessEnds(s, was, schedule, i);
    }
    NothingLeftBehind(s, was, schedule);
  }

  // ----- which blocks are tried -----

  /** The candidate a process is at, if it is at one. */
  function AtCandidate(p: Process): set<int> {
    match p.phase
    case Choosing => {}
    case Finished => {}
    case Failed => {}
    case Locking(c, _, _) => {c}
    case Probing(c, _) => {c}
    case Listing(c, _) => {c}
    case RollingBack(c, _, _) => {c}
    case Holding(c, _) => {c}
    case Releasing(c, _) => {c}
    case Closing(c) => {c}
  }

  /** A process tries, in each attempt, the block at the slot that is that much further than its seed. */
  ghost predicate AtItsSlot(p: Process) {
    var o := p.options;
    forall c | c in AtCandidate(p) :: exists k :: IsSlot(o, c, k, p.attempt)
  }

  predicate IsSlot(o: Options, c: int, k: int, attempt: nat) {
    0 <= k < o.slots && c == o.base + k * o.stride && (k - o.seed) % o.slots == attempt
  }

  lemma ActStaysAtSlot(dirs: set<Lock>, manifests: map<int, seq<int>>, p: Process, choice: Choice)
    requires AtItsSlot(p)
    ensures AtItsSlot(Act(dirs, manifests, p, choice).2)
    ensures Act(dirs, manifests, p, choice).2.options == p.options
  {
    var p' := Act(dirs, manifests, p, choice).2;
    if p.phase.Choosing? && p.attempt < p.options.slots {
      var k := AttemptAtSlot(p.options, p.attempt);
      assert IsSlot(p.options, Candidate(p.options, p.attempt), k, p.attempt);
      hide Candidate, BlockPorts, InRange, IsSlot;
      assert AtCandidate(p') <= {Candidate(p.options, p.attempt)};
    } else {
      hide Candidate, BlockPorts, InRange, IsSlot;
      assert AtCandidate(p') <= AtCandidate(p) && (AtCandidate(p') != {} ==> p'.attempt == p.attempt) && p'.options == p.options;
    }
    hide Act, AtCandidate;
  }

  /** In every run every process keeps to its slots, one attempt each. */
  lemma {:induction false} TriesItsSlots(s: System, schedule: seq<Turn>, i: nat)
    requires i in s.procs && AtItsSlot(s.procs[i])
    ensures i in Run(s, schedule).procs && AtItsSlot(Run(s, schedule).procs[i])
    decreases |schedule|
  {
    if schedule != [] {
      var turn := schedule[0];
      hide AtItsSlot;
      if turn.who in s.procs {
        if turn.who == i { ActStaysAtSlot(s.dirs, s.manifests, s.procs[i], turn.choice); }
        hide Act;
        TriesItsSlots(Step(s, turn.who, turn.choice), schedule[1..], i);
      } else {
        TriesItsSlots(s, schedule[1..], i);
      }
    }
  }

  /** Two attempts of one process are at different slots, and a slot is never left out. */
  lemma EverySlotOnce(o: Options, k: int)
    requires 0 <= k < o.slots
    ensures exists attempt: nat :: attempt < o.slots && IsSlot(o, Candidate(o, attempt), k, attempt)
  {
    CandidateOfSlot(o, k);
    assert IsSlot(o, Candidate(o, Turns(o, k)), k, Turns(o, k));
  }

  // ----- what the probe and the manifest decide -----

  /** All turns of process `i` go one way. */
  ghost predicate Always(schedule: seq<Turn>, i: nat, choice: Choice) {
    forall k | 0 <= k < |schedule| && schedule[k].who == i :: schedule[k].choice == choice
  }

  /** A process whose probes and manifests succeed gives up only after it has been at every slot. */
  ghost predicate Persistent(p: Process) {
    (p.phase.Failed? ==> p.attempt >= p.options.slots) && (p.phase.RollingBack? ==> !p.phase.raising)
  }

  lemma {:induction false} GivesUpAtTheEnd(s: System, schedule: seq<Turn>, i: nat)
    requires i in s.procs && Persistent(s.procs[i]) && Always(schedule, i, Yes)
    ensures i in Run(s, schedule).procs && Persistent(Run(s, schedule).procs[i])
    decreases |schedule|
  {
    if schedule != [] {
      var turn := schedule[0];
      hide BlockPorts, InRange, Candidate;
      GivesUpAtTheEnd(if turn.who in s.procs then Step(s, turn.who, turn.choice) else s, schedule[1..], i);
    }
  }

  /** One whose probes fail never has a block. */
  ghost predicate Empty(p: Process) {
    !p.phase.Listing? && !p.phase.Holding? && !p.phase.Releasing? && !p.phase.Closing? && !p.phase.Finished?
  }

  lemma {:induction false} UnboundNeverHolds(s: System, schedule: seq<Turn>, i: nat)
    requires i in s.procs && Empty(s.procs[i]) && Always(schedule, i, No)
    ensures i in Run(s, schedule).procs && Empty(Run(s, schedule).procs[i])
    decreases |schedule|
  {
    if schedule != [] {
      var turn := schedule[0];
      hide BlockPorts, InRange, Candidate;
      UnboundNeverHolds(if turn.who in s.procs then Step(s, turn.who, turn.choice) else s, schedule[1..], i);
    }
  }

  /** One that cannot write its manifest makes no other attempt. */
  ghost predicate Raising(p: Process, attempt: nat) {
    p.attempt == attempt && (p.phase.Failed? || (p.phase.RollingBack? && p.phase.raising))
  }

  lemma {:induction false} UnwritableGivesUp(s: System, schedule: seq<Turn>, i: nat, attempt: nat)
    requires i in s.procs && s.procs[i].attempt == attempt
    requires Raising(s.procs[i], attempt) || (s.procs[i].phase.Listing? && schedule != [] && schedule[0] == Turn(i, No))
    ensures i in Run(s, schedule).procs && Raising(Run(s, schedule).procs[i], attempt)
    decreases |schedule|
  {
    if schedule != [] {
      var turn := schedule[0];
      hide BlockPorts, InRange, Candidate;
      UnwritableGivesUp(if turn.who in s.procs then Step(s, turn.who, turn.choice) else s, schedule[1..], i, attempt);
    }
  }

  /** With all its locks made, a process holds its block after the probe and the manifest, and has listed all of it. */
  lemma TwoTurnsToHold(s: System, i: nat)
    requires i in s.procs && s.procs[i].phase.Probing?
    ensures var t := Step(s, i, Yes); var u := Step(t, i, Yes);
      && u.procs[i].phase == Holding(s.procs[i].phase.candidate, s.procs[i].phase.acquired)
      && u.manifests == s.manifests[s.procs[i].phase.candidate := s.procs[i].phase.acquired] && u.dirs == s.dirs
  {
  }
}
