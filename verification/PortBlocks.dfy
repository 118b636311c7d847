/**
 The port-block reservation protocol: any number of processes, each taking lock directories one atomic `mkdir` at
 a time and giving up everything as soon as one of them is taken.
 */
module PortBlocks {

  datatype Lock = Reservation(candidate: int) | Port(port: int)

  datatype Options = Options(seed: int, relayCount: nat, base: int, stride: int, slots: int)

  // ----- ports of a block -----

  function Range(first: int, count: nat): (r: seq<int>)
    ensures |r| == count && forall i | 0 <= i < count :: r[i] == first + i
  {
    seq(count, i => first + i)
  }

  function RequiredPorts(base: int, relayCount: nat): seq<int> {
    [base, base + 301, base + 302] + Range(base + 1, relayCount) + Range(base + 1001, relayCount)
  }

  ghost predicate Ascending(s: seq<int>) {
    forall i, j | 0 <= i < j < |s| :: s[i] < s[j]
  }

  function Insert(x: int, s: seq<int>): (r: seq<int>)
    requires Ascending(s)
    ensures Ascending(r) && forall y :: y in r <==> y == x || y in s
    decreases |s|
  {
    if s == [] || x < s[0] then [x] + s
    else if x == s[0] then s
    else
      var rest := Insert(x, s[1..]);
      assert forall i | 0 <= i < |rest| :: rest[i] in rest;
      [s[0]] + rest
  }

  /** The distinct ports in ascending order. */
  function SortedSet(s: seq<int>): (r: seq<int>)
    ensures Ascending(r) && forall y :: y in r <==> y in s
    decreases |s|
  {
    if s == [] then [] else Insert(s[0], SortedSet(s[1..]))
  }

  function BlockPorts(base: int, relayCount: nat): seq<int> {
    SortedSet(RequiredPorts(base, relayCount))
  }

  /** `min(ports) < 1024 or max(ports) > 65535` fails. */
  predicate InRange(base: int, relayCount: nat) {
    forall p | p in RequiredPorts(base, relayCount) :: 1024 <= p <= 65535
  }

  function Candidate(o: Options, attempt: nat): int
    requires o.slots > 0
  {
    o.base + (o.seed + attempt) % o.slots * o.stride
  }

  function PortLocks(ports: seq<int>): set<Lock> {
    set p | p in ports :: Port(p)
  }

  // ----- one process -----

  datatype Phase =
    | Choosing
    | Locking(candidate: int, todo: seq<int>, acquired: seq<int>)
    | Probing(candidate: int, acquired: seq<int>)
    | Listing(candidate: int, acquired: seq<int>)
    | RollingBack(candidate: int, acquired: seq<int>, raising: bool)
    | Holding(candidate: int, acquired: seq<int>)
    | Releasing(candidate: int, todo: seq<int>)
    | Closing(candidate: int)
    | Finished
    | Failed

  datatype Process = Process(options: Options, attempt: nat, phase: Phase)

  /** The lock directories a process has made and not yet removed. */
  function Holds(p: Process): set<Lock> {
    match p.phase
    case Locking(c, _, acquired) => {Reservation(c)} + PortLocks(acquired)
    case Probing(c, acquired) => {Reservation(c)} + PortLocks(acquired)
    case Listing(c, acquired) => {Reservation(c)} + PortLocks(acquired)
    case RollingBack(c, acquired, _) => {Reservation(c)} + PortLocks(acquired)
    case Holding(c, acquired) => {Reservation(c)} + PortLocks(acquired)
    case Releasing(c, todo) => {Reservation(c)} + PortLocks(todo)
    case Closing(c) => {Reservation(c)}
    case _ => {}
  }

  // ----- the system -----

  /** The lock root on disk, the manifests in its reservation directories, and the processes. */
  datatype System = System(dirs: set<Lock>, manifests: map<int, seq<int>>, procs: map<nat, Process>)

  /** What the process cannot decide: whether the bind probe succeeds, and whether the manifest can be written. */
  datatype Choice = Yes | No

  function NextAttempt(p: Process): Process {
    Process(p.options, p.attempt + 1, Choosing)
  }

  /** The next atomic action of one process: the directories, its manifest and its own new state. */
  function Act(dirs: set<Lock>, manifests: map<int, seq<int>>, p: Process, choice: Choice): (set<Lock>, map<int, seq<int>>, Process)
  {
    match p.phase
    case Choosing =>
      if p.attempt >= p.options.slots then (dirs, manifests, p.(phase := Failed))
      else
        var c := Candidate(p.options, p.attempt);
        if !InRange(c, p.options.relayCount) || Reservation(c) in dirs then (dirs, manifests, NextAttempt(p))
        else (dirs + {Reservation(c)}, manifests, p.(phase := Locking(c, BlockPorts(c, p.options.relayCount), [])))
    case Locking(c, todo, acquired) =>
      if todo == [] then (dirs, manifests, p.(phase := Probing(c, acquired)))
      else if Port(todo[0]) in dirs then (dirs, manifests, p.(phase := RollingBack(c, acquired, false)))
      else (dirs + {Port(todo[0])}, manifests, p.(phase := Locking(c, todo[1..], acquired + [todo[0]])))
    case Probing(c, acquired) =>
      (dirs, manifests, p.(phase := if choice.Yes? then Listing(c, acquired) else RollingBack(c, acquired, false)))
    case Listing(c, acquired) =>
      if choice.Yes? then (dirs, manifests[c := acquired], p.(phase := Holding(c, acquired)))
      else (dirs, manifests, p.(phase := RollingBack(c, acquired, true)))
    case RollingBack(c, acquired, raising) =>
      if acquired != [] then
        (dirs - {Port(acquired[|acquired| - 1])}, manifests, p.(phase := RollingBack(c, acquired[..|acquired| - 1], raising)))
      else (dirs - {Reservation(c)}, manifests, if raising then p.(phase := Failed) else NextAttempt(p))
    case Holding(c, acquired) =>
      (dirs, manifests, p.(phase := if c in manifests then Releasing(c, manifests[c]) else Closing(c)))
    case Releasing(c, todo) =>
      if todo != [] then (dirs - {Port(todo[0])}, manifests, p.(phase := Releasing(c, todo[1..])))
      else (dirs, manifests - {c}, p.(phase := Closing(c)))
    case Closing(c) => (dirs - {Reservation(c)}, manifests, p.(phase := Finished))
    case Finished => (dirs, manifests, p)
    case Failed => (dirs, manifests, p)
  }

  function Step(s: System, i: nat, choice: Choice): System
    requires i in s.procs
  {
    var (dirs, manifests, p) := Act(s.dirs, s.manifests, s.procs[i], choice);
    System(dirs, manifests, s.procs[i := p])
  }

  /** What a process knows about itself: its port locks come from its block, taken in ascending order, each once. */
  ghost predicate Coherent(p: Process) {
    match p.phase
    case Locking(c, todo, acquired) => acquired + todo == BlockPorts(c, p.options.relayCount) && InRange(c, p.options.relayCount)
    case Probing(c, acquired) => acquired == BlockPorts(c, p.options.relayCount) && InRange(c, p.options.relayCount)
    case Listing(c, acquired) => acquired == BlockPorts(c, p.options.relayCount) && InRange(c, p.options.relayCount)
    case RollingBack(c, acquired, _) => Ascending(acquired)
    case Holding(c, acquired) => acquired == BlockPorts(c, p.options.relayCount) && InRange(c, p.options.relayCount)
    case Releasing(c, todo) => Ascending(todo)
    case _ => true
  }

  /** The candidate whose reservation directory a process owns. */
  function Candidates(p: Process): set<int> {
    set l | l in Holds(p) && l.Reservation? :: l.candidate
  }

  /** A held block is listed in its manifest; a reservation directory is empty until then and when it is removed. */
  ghost predicate Listed(p: Process, manifests: map<int, seq<int>>) {
    match p.phase
    case Holding(c, acquired) => c in manifests && manifests[c] == acquired
    case Releasing(c, _) => c in manifests
    case _ => Candidates(p) !! manifests.Keys
  }

  /** A manifest lies in a reservation directory. */
  ghost predicate Housed(dirs: set<Lock>, manifests: map<int, seq<int>>) {
    forall c | c in manifests :: Reservation(c) in dirs
  }

  /** What lay under the lock root before any of the processes began. */
  datatype Residue = Residue(dirs: set<Lock>, manifests: map<int, seq<int>>)

  /** Every process knows itself, and holds directories that exist, that it made, and that nobody else holds. */
  ghost predicate Separate(s: System, was: Residue) {
    && (forall i | i in s.procs :: Coherent(s.procs[i]) && Listed(s.procs[i], s.manifests))
    && (forall i | i in s.procs :: Holds(s.procs[i]) <= s.dirs && Holds(s.procs[i]) !! was.dirs)
    && (forall i, j | i in s.procs && j in s.procs && i != j :: Holds(s.procs[i]) !! Holds(s.procs[j]))
  }

  /** Nothing is under the lock root but what was there and what the processes hold. */
  ghost predicate Conserved(s: System, was: Residue) {
    && was.dirs <= s.dirs
    && (forall l | l in s.dirs :: l in was.dirs || exists i | i in s.procs :: l in Holds(s.procs[i]))
    && (forall c | c in was.manifests :: c in s.manifests && s.manifests[c] == was.manifests[c])
    && (forall c | c in s.manifests :: c in was.manifests || exists i | i in s.procs :: Reservation(c) in Holds(s.procs[i]))
    && Housed(was.dirs, was.manifests) && Housed(s.dirs, s.manifests)
  }

  ghost predicate Inv(s: System, was: Residue) {
    Separate(s, was) && Conserved(s, was)
  }

  // ----- one action -----

  lemma PrefixAscends(a: seq<int>, b: seq<int>)
    requires Ascending(a + b)
    ensures Ascending(a) && Ascending(b)
    ensures forall x | x in a :: x !in b
  {
    assert forall i | 0 <= i < |a| :: (a + b)[i] == a[i];
    assert forall i | 0 <= i < |b| :: (a + b)[|a| + i] == b[i];
  }

  /** A process that takes the next port of its block takes one it does not have yet. */
  lemma LockingIsOwn(dirs: set<Lock>, manifests: map<int, seq<int>>, p: Process, choice: Choice)
    requires p.phase.Locking? && Coherent(p) && Holds(p) <= dirs
    ensures var (dirs', _, p') := Act(dirs, manifests, p, choice);
      && dirs' == dirs - (Holds(p) - Holds(p')) + (Holds(p') - Holds(p))
      && Holds(p') - Holds(p) !! dirs
      && Coherent(p')
  {
    var Locking(c, todo, acquired) := p.phase;
    PrefixAscends(acquired, todo);
    if todo != [] {
      assert (acquired + [todo[0]]) + todo[1..] == acquired + todo;
      assert PortLocks(acquired + [todo[0]]) == PortLocks(acquired) + {Port(todo[0])};
    } else {
      assert acquired + todo == acquired;
    }
  }

  lemma RollingBackIsOwn(dirs: set<Lock>, manifests: map<int, seq<int>>, p: Process, choice: Choice)
    requires p.phase.RollingBack? && Coherent(p) && Holds(p) <= dirs
    ensures var (dirs', _, p') := Act(dirs, manifests, p, choice);
      dirs' == dirs - (Holds(p) - Holds(p')) && Holds(p') <= Holds(p) && Coherent(p')
  {
    var RollingBack(c, acquired, raising) := p.phase;
    if acquired != [] {
      var n := |acquired| - 1;
      LastLock(acquired[..n], acquired[n]);
      assert acquired == acquired[..n] + [acquired[n]];
      hide Ascending, PortLocks;
    }
  }

  lemma ReleasingIsOwn(dirs: set<Lock>, manifests: map<int, seq<int>>, p: Process, choice: Choice)
    requires p.phase.Releasing? && Coherent(p) && Holds(p) <= dirs
    ensures var (dirs', _, p') := Act(dirs, manifests, p, choice);
      dirs' == dirs - (Holds(p) - Holds(p')) && Holds(p') <= Holds(p) && Coherent(p')
  {
    var Releasing(c, todo) := p.phase;
    if todo != [] {
      assert todo == [todo[0]] + todo[1..];
      FirstLock(todo[0], todo[1..]);
      hide Ascending, PortLocks;
    }
  }

  lemma LastLock(ports: seq<int>, port: int)
    requires Ascending(ports + [port])
    ensures Ascending(ports) && PortLocks(ports + [port]) == PortLocks(ports) + {Port(port)} && Port(port) !in PortLocks(ports)
  {
    PrefixAscends(ports, [port]);
  }

  lemma FirstLock(port: int, ports: seq<int>)
    requires Ascending([port] + ports)
    ensures Ascending(ports) && PortLocks([port] + ports) == PortLocks(ports) + {Port(port)} && Port(port) !in PortLocks(ports)
  {
    PrefixAscends([port], ports);
  }

  /** One action changes the directories by exactly what it changes in the actor's own holdings. */
  lemma ActIsOwn(dirs: set<Lock>, manifests: map<int, seq<int>>, p: Process, choice: Choice)
    requires Coherent(p) && Listed(p, manifests) && Housed(dirs, manifests) && Holds(p) <= dirs
    ensures var (dirs', manifests', p') := Act(dirs, manifests, p, choice);
      && dirs' == dirs - (Holds(p) - Holds(p')) + (Holds(p') - Holds(p))
      && Holds(p') - Holds(p) !! dirs
      && Coherent(p') && Listed(p', manifests') && Housed(dirs', manifests')
      && (forall c :: Reservation(c) !in Holds(p) ==> (c in manifests' <==> c in manifests))
      && (forall c :: Reservation(c) !in Holds(p) && c in manifests ==> manifests'[c] == manifests[c])
  {
    match p.phase
    case Locking(_, _, _) =>
      LockingIsOwn(dirs, manifests, p, choice);
      hide Coherent;
    case RollingBack(_, _, _) =>
      RollingBackIsOwn(dirs, manifests, p, choice);
      hide Coherent;
    case Releasing(_, _) =>
      ReleasingIsOwn(dirs, manifests, p, choice);
      hide Coherent;
    case _ => hide PortLocks, InRange;
  }

  lemma StepSeparate(s: System, was: Residue, i: nat, choice: Choice)
    requires i in s.procs && Inv(s, was)
    ensures Separate(Step(s, i, choice), was)
  {
    var t := Step(s, i, choice);
    ActIsOwn(s.dirs, s.manifests, s.procs[i], choice);
    hide Coherent, Act, Holds;
    forall j | j in t.procs
      ensures Coherent(t.procs[j]) && Listed(t.procs[j], t.manifests)
      ensures Holds(t.procs[j]) <= t.dirs && Holds(t.procs[j]) !! was.dirs
      ensures i != j ==> Holds(t.procs[i]) !! Holds(t.procs[j])
    {
      if j != i {
        OthersListed(s, i, j, choice);
      }
    }
  }

  /** What one process does to the manifests leaves every other process's manifest as it was. */
  lemma OthersListed(s: System, i: nat, j: nat, choice: Choice)
    requires i in s.procs && j in s.procs && i != j
    requires Coherent(s.procs[i]) && Listed(s.procs[i], s.manifests) && Housed(s.dirs, s.manifests) && Holds(s.procs[i]) <= s.dirs
    requires Listed(s.procs[j], s.manifests) && Holds(s.procs[i]) !! Holds(s.procs[j])
    ensures Listed(s.procs[j], Step(s, i, choice).manifests)
  {
    ActIsOwn(s.dirs, s.manifests, s.procs[i], choice);
    hide Coherent, Act;
    var q := s.procs[j];
    assert forall c | Reservation(c) in Holds(q) :: Reservation(c) !in Holds(s.procs[i]);
    match q.phase
    case Holding(c, _) => assert Reservation(c) in Holds(q);
    case Releasing(c, _) => assert Reservation(c) in Holds(q);
    case _ =>
  }

  lemma StepConserved(s: System, was: Residue, i: nat, choice: Choice)
    requires i in s.procs && Inv(s, was)
    ensures Conserved(Step(s, i, choice), was)
  {
    var t := Step(s, i, choice);
    ActIsOwn(s.dirs, s.manifests, s.procs[i], choice);
    hide Coherent, Act, Holds, Listed;
    forall l | l in t.dirs
      ensures l in was.dirs || exists j | j in t.procs :: l in Holds(t.procs[j])
    {
      if l in Holds(t.procs[i]) {
      } else if l in s.dirs && l !in was.dirs {
        var j :| j in s.procs && l in Holds(s.procs[j]);
        assert j != i;
        assert t.procs[j] == s.procs[j];
      }
    }
    forall c | c in was.manifests
      ensures c in t.manifests && t.manifests[c] == was.manifests[c]
    {
      assert Reservation(c) in was.dirs;
      assert Reservation(c) !in Holds(s.procs[i]);
    }
    forall c | c in t.manifests && c !in was.manifests
      ensures exists j | j in t.procs :: Reservation(c) in Holds(t.procs[j])
    {
      assert Reservation(c) in t.dirs;
    }
  }

  lemma StepKeeps(s: System, was: Residue, i: nat, choice: Choice)
    requires i in s.procs && Inv(s, was)
    ensures Inv(Step(s, i, choice), was)
  {
    StepSeparate(s, was, i, choice);
    StepConserved(s, was, i, choice);
  }

  // ----- runs: any interleaving of any number of processes -----

  datatype Turn = Turn(who: nat, choice: Choice)

  function Run(s: System, schedule: seq<Turn>): System
    decreases |schedule|
  {
    if schedule == [] then s
    else
      var turn := schedule[0];
      Run(if turn.who in s.procs then Step(s, turn.who, turn.choice) else s, schedule[1..])
  }

  /** Every process is at its first attempt and the lock root holds only the residue. */
  ghost predicate Begins(s: System, was: Residue) {
    && s.dirs == was.dirs && s.manifests == was.manifests && Housed(was.dirs, was.manifests)
    && forall i | i in s.procs :: s.procs[i].phase == Choosing && s.procs[i].attempt == 0
  }

  lemma {:induction false} RunKeeps(s: System, was: Residue, schedule: seq<Turn>)
    requires Inv(s, was)
    ensures Inv(Run(s, schedule), was)
    decreases |schedule|
  {
    if schedule != [] {
      var turn := schedule[0];
      if turn.who in s.procs {
        StepKeeps(s, was, turn.who, turn.choice);
        RunKeeps(Step(s, turn.who, turn.choice), was, schedule[1..]);
      } else {
        RunKeeps(s, was, schedule[1..]);
      }
    }
  }

  lemma ReachableInv(s: System, was: Residue, schedule: seq<Turn>)
    requires Begins(s, was)
    ensures Inv(Run(s, schedule), was)
  {
    RunKeeps(s, was, schedule);
  }

  /** Two processes that both hold a block hold blocks without a common port, each inside 1024..65535 and fully locked. */
  lemma LiveBlocksAreDisjoint(s: System, was: Residue, schedule: seq<Turn>, i: nat, j: nat)
    requires Begins(s, was)
    requires i in s.procs && j in s.procs && i != j
    requires var t := Run(s, schedule); i in t.procs && t.procs[i].phase.Holding? && j in t.procs && t.procs[j].phase.Holding?
    ensures var t := Run(s, schedule);
      var p, q := t.procs[i], t.procs[j];
      && (forall x | x in RequiredPorts(p.phase.candidate, p.options.relayCount) ::
        1024 <= x <= 65535 && Port(x) in t.dirs && x !in RequiredPorts(q.phase.candidate, q.options.relayCount))
      && p.phase.candidate != q.phase.candidate
  {
    ReachableInv(s, was, schedule);
    hide Run;
    var t := Run(s, schedule);
    var p, q := t.procs[i], t.procs[j];
    assert Reservation(p.phase.candidate) in Holds(p) && Reservation(q.phase.candidate) in Holds(q);
    assert forall y | y in RequiredPorts(q.phase.candidate, q.options.relayCount) :: y in q.phase.acquired && Port(y) in Holds(q);
    forall x | x in RequiredPorts(p.phase.candidate, p.options.relayCount)
      ensures Port(x) in Holds(p) && 1024 <= x <= 65535
      ensures x !in RequiredPorts(q.phase.candidate, q.options.relayCount)
    {
      assert x in p.phase.acquired;
    }
  }

  predicate AtRest(p: Process) {
    p.phase.Choosing? || p.phase.Finished? || p.phase.Failed?
  }

  /**
   Conservation: whatever the interleaving, what lies under the lock root is the residue and, disjointly, what the
   processes hold; once every process is between candidates, done or given up, exactly the residue is left.
   */
  lemma NothingLeftBehind(s: System, was: Residue, schedule: seq<Turn>)
    requires Begins(s, was)
    ensures var t := Run(s, schedule);
      && t.dirs == was.dirs + (set i, l | i in t.procs && l in Holds(t.procs[i]) :: l)
      && (forall i | i in t.procs :: Holds(t.procs[i]) !! was.dirs)
      && ((forall i | i in t.procs :: AtRest(t.procs[i])) ==> t.dirs == was.dirs && t.manifests == was.manifests)
  {
    ReachableInv(s, was, schedule);
    hide Run, Coherent, Listed;
    var t := Run(s, schedule);
    if forall i | i in t.procs :: AtRest(t.procs[i]) {
      assert forall i | i in t.procs :: Holds(t.procs[i]) == {};
      forall c | c in t.manifests ensures c in was.manifests {
        assert forall i | i in t.procs :: Reservation(c) !in Holds(t.procs[i]);
      }
      assert forall c | c in was.manifests :: c in t.manifests;
      assert t.manifests.Keys == was.manifests.Keys;
      assert forall c | c in t.manifests :: c in was.manifests && t.manifests[c] == was.manifests[c];
      assert t.manifests == was.manifests;
      assert forall l | l in t.dirs :: l in was.dirs;
    }
  }

  /**
   Cleaning up never trips: every directory a process removes, while rolling back or releasing, is there, is its own,
   and is empty when it is removed.
   */
  lemma RemovalsSucceed(s: System, was: Residue, schedule: seq<Turn>, i: nat, choice: Choice)
    requires Begins(s, was) && i in s.procs
    ensures var t := Run(s, schedule);
      i in t.procs &&
      var gone := t.dirs - Step(t, i, choice).dirs;
      && gone <= Holds(t.procs[i])
      && (forall c | Reservation(c) in gone :: c !in t.manifests)
      && (match t.procs[i].phase
          case RollingBack(c, acquired, _) => gone == {if acquired == [] then Reservation(c) else Port(acquired[|acquired| - 1])}
          case Releasing(_, todo) => gone == if todo == [] then {} else {Port(todo[0])}
          case Closing(c) => gone == {Reservation(c)}
          case _ => gone == {})
  {
    ReachableInv(s, was, schedule);
    RunKeepsProcesses(s, schedule);
    hide Run;
    var t := Run(s, schedule);
    var p := t.procs[i];
    ActIsOwn(t.dirs, t.manifests, p, choice);
    if p.phase.RollingBack? && p.phase.acquired != [] {
      assert Port(p.phase.acquired[|p.phase.acquired| - 1]) in Holds(p);
    }
  }

  lemma {:induction false} RunKeepsProcesses(s: System, schedule: seq<Turn>)
    ensures Run(s, schedule).procs.Keys == s.procs.Keys
    decreases |schedule|
  {
    if schedule != [] {
      var turn := schedule[0];
      RunKeepsProcesses(if turn.who in s.procs then Step(s, turn.who, turn.choice) else s, schedule[1..]);
    }
  }

  /** As long as a process does not act itself, its state, its directories and its manifest survive whatever the others do. */
  lemma {:induction false} OthersCannotDisturb(s: System, was: Residue, schedule: seq<Turn>, j: nat)
    requires Inv(s, was) && j in s.procs && forall k | 0 <= k < |schedule| :: schedule[k].who != j
    ensures var t := Run(s, schedule);
      && j in t.procs && t.procs[j] == s.procs[j]
      && Holds(s.procs[j]) <= t.dirs
      && (s.procs[j].phase.Holding? ==>
        s.procs[j].phase.candidate in t.manifests && t.manifests[s.procs[j].phase.candidate] == s.procs[j].phase.acquired)
    decreases |schedule|
  {
    if schedule != [] {
      var turn := schedule[0];
      if turn.who in s.procs {
        StepKeeps(s, was, turn.who, turn.choice);
        OthersCannotDisturb(Step(s, turn.who, turn.choice), was, schedule[1..], j);
      } else {
        OthersCannotDisturb(s, was, schedule[1..], j);
      }
    }
  }

  predicate Contends(p: Process) {
    p.phase.Locking? && p.phase.todo != []
  }

  function NextPort(p: Process): int
    requires Contends(p)
  {
    p.phase.todo[0]
  }

  lemma TakenAreLower(p: Process)
    requires Coherent(p) && Contends(p)
    ensures forall x | Port(x) in Holds(p) :: x < NextPort(p)
  {
    var Locking(c, todo, acquired) := p.phase;
    assert (acquired + todo)[|acquired|] == todo[0];
    forall x | x in acquired
      ensures x < todo[0]
    {
      var k :| 0 <= k < |acquired| && acquired[k] == x;
      assert (acquired + todo)[k] == x;
    }
  }

  lemma {:induction false} HighestNextPort(procs: map<nat, Process>, group: set<nat>) returns (winner: nat)
    requires group != {} && forall i | i in group :: i in procs && Contends(procs[i])
    ensures winner in group
    ensures forall j | j in group :: NextPort(procs[j]) <= NextPort(procs[winner])
    decreases group
  {
    hide Contends, NextPort;
    var i :| i in group;
    var rest := group - {i};
    winner := i;
    if rest != {} {
      var best := HighestNextPort(procs, rest);
      if NextPort(procs[i]) < NextPort(procs[best]) { winner := best; }
    }
    forall j | j in group ensures NextPort(procs[j]) <= NextPort(procs[winner]) {
      assert j == i || j in rest;
    }
  }

  /**
   Ports are taken in ascending order, so among processes that are each about to take their next port there is
   always one whose next port none of the others has: contenders never all defeat one another.
   */
  lemma SomeContenderWins(s: System, was: Residue, group: set<nat>) returns (winner: nat)
    requires Inv(s, was) && group != {} && forall i | i in group :: i in s.procs && Contends(s.procs[i])
    ensures winner in group
    ensures forall j | j in group && j != winner :: Port(NextPort(s.procs[winner])) !in Holds(s.procs[j])
  {
    winner := HighestNextPort(s.procs, group);
    forall j | j in group && j != winner
      ensures Port(NextPort(s.procs[winner])) !in Holds(s.procs[j])
    {
      TakenAreLower(s.procs[j]);
    }
  }
}
