/**
 The reservation script as one process runs it: `reserve_port_block` and `release_port_block` over the lock directories
 and manifests under the lock root.
 */
module PortBlockFiles {
  import opened Arithmetic
  import opened PortBlocks

  datatype Outcome = Reserved(candidate: int) | WriteFailed | NoFreeBlock

  ghost predicate Distinct(s: seq<int>) {
    forall i, j | 0 <= i < j < |s| :: s[i] != s[j]
  }

  /** Every port can be bound at once: none is taken elsewhere and none is asked for twice. */
  ghost predicate Bindable(ports: seq<int>, busy: set<int>) {
    Distinct(ports) && forall p | p in ports :: p !in busy
  }

  /** A candidate that a process alone on the lock root would get. */
  ghost predicate Usable(o: Options, c: int, dirs: set<Lock>, busy: set<int>) {
    && InRange(c, o.relayCount)
    && Reservation(c) !in dirs
    && PortLocks(BlockPorts(c, o.relayCount)) !! dirs
    && Bindable(RequiredPorts(c, o.relayCount), busy)
  }

  // ----- the same in numbers -----

  /** The ports of a block of `n` relays at `c`. */
  predicate InBlock(p: int, c: int, n: nat) {
    p == c || p == c + 301 || p == c + 302 || c < p <= c + n || c + 1000 < p <= c + 1000 + n
  }

  /** Nobody has the block, every port of it is a user port that is neither locked nor in use, and none comes twice. */
  ghost predicate Vacant(c: int, n: nat, dirs: set<Lock>, busy: set<int>) {
    && n <= 300 && Reservation(c) !in dirs
    && forall p | InBlock(p, c, n) :: 1024 <= p <= 65535 && Port(p) !in dirs && p !in busy
  }

  lemma RequiredAre(c: int, n: nat)
    ensures forall p :: p in RequiredPorts(c, n) <==> InBlock(p, c, n)
  {
    var ports := RequiredPorts(c, n);
    assert ports[0] == c && ports[1] == c + 301 && ports[2] == c + 302;
    assert forall i | 3 <= i < 3 + n :: ports[i] == c + i - 2;
    assert forall i | 3 + n <= i < 3 + 2 * n :: ports[i] == c + 1001 + (i - 3 - n);
    forall p | InBlock(p, c, n) ensures p in ports {
      if c < p <= c + n { assert ports[p - c + 2] == p; }
      if c + 1000 < p <= c + 1000 + n { assert ports[p - c - 1001 + 3 + n] == p; }
    }
  }

  lemma UsableIsVacant(o: Options, c: int, dirs: set<Lock>, busy: set<int>)
    ensures Usable(o, c, dirs, busy) <==> Vacant(c, o.relayCount, dirs, busy)
  {
    RequiredAre(c, o.relayCount);
    BlockIsDistinct(c, o.relayCount);
    hide RequiredPorts, Distinct, SortedSet;
    var ports := BlockPorts(c, o.relayCount);
    assert forall p :: p in ports <==> InBlock(p, c, o.relayCount);
    assert PortLocks(ports) !! dirs <==> forall p | InBlock(p, c, o.relayCount) :: Port(p) !in dirs by {
      if PortLocks(ports) !! dirs {
        forall p | InBlock(p, c, o.relayCount) ensures Port(p) !in dirs { assert Port(p) in PortLocks(ports); }
      }
    }
  }

  /** What a reservation adds to the lock root. */
  lemma ReserveAdds(dirs: set<Lock>, c: int, n: nat, l: Lock)
    ensures l in AfterReserve(dirs, c, n) <==>
      l in dirs || match l case Reservation(d) => d == c case Port(p) => InBlock(p, c, n)
  {
    RequiredAre(c, n);
    hide RequiredPorts;
  }

  /** How many attempts come before the one at slot `k`: they begin at the seed and go round. */
  function Turns(o: Options, k: int): int
    requires o.slots > 0
  {
    (k - o.seed) % o.slots
  }

  /** Every slot has its attempt, and every attempt its slot. */
  lemma AttemptAtSlot(o: Options, attempt: nat) returns (k: int)
    requires attempt < o.slots
    ensures 0 <= k < o.slots && Candidate(o, attempt) == o.base + k * o.stride && Turns(o, k) == attempt
    ensures forall i | 0 <= i < o.slots && Turns(o, i) == attempt :: i == k
  {
    k := (o.seed + attempt) % o.slots;
    forall i | 0 <= i < o.slots ensures Turns(o, i) == attempt <==> i == k { SlotOfAttempt(o, attempt, i); }
  }

  lemma SlotOfAttempt(o: Options, attempt: nat, i: int)
    requires attempt < o.slots && 0 <= i < o.slots
    ensures Turns(o, i) == attempt <==> i == (o.seed + attempt) % o.slots
  {
    if Turns(o, i) == attempt {
      SameRemainder(i - o.seed, attempt, o.seed, o.slots);
      SmallRemainder(i, o.slots);
    }
    if i == (o.seed + attempt) % o.slots {
      SameRemainder(o.seed + attempt, i, -o.seed, o.slots);
      SmallRemainder(attempt, o.slots);
    }
  }

  lemma SmallRemainder(x: int, m: int)
    requires 0 <= x < m
    ensures x % m == x
  {
  }

  /** Equal remainders stay equal when the same is added. */
  lemma SameRemainder(x: int, r: int, y: int, m: int)
    requires m > 0 && x % m == r
    ensures (x + y) % m == (r + y) % m
  {
    RemainderAbsorbs(x, y, m);
  }

  lemma CandidateOfSlot(o: Options, k: int)
    requires 0 <= k < o.slots
    ensures 0 <= Turns(o, k) < o.slots && Candidate(o, Turns(o, k)) == o.base + k * o.stride
  {
    var i := AttemptAtSlot(o, Turns(o, k));
  }

  function AfterReserve(dirs: set<Lock>, c: int, relayCount: nat): set<Lock> {
    dirs + {Reservation(c)} + PortLocks(BlockPorts(c, relayCount))
  }

  function AfterRelease(dirs: set<Lock>, manifests: map<int, seq<int>>, c: int): set<Lock> {
    dirs - {Reservation(c)} - (if c in manifests then PortLocks(manifests[c]) else {})
  }

  /** `ports_are_available`: each probe socket stays open, so a port that comes twice finds itself taken. */
  method PortsAreAvailable(ports: seq<int>, busy: set<int>) returns (ok: bool)
    ensures ok <==> Bindable(ports, busy)
  {
    var sockets: set<int> := {};
    for k := 0 to |ports|
      invariant sockets == set i | 0 <= i < k :: ports[i]
      invariant Distinct(ports[..k])
      invariant forall i | 0 <= i < k :: ports[i] !in busy
    {
      if ports[k] in busy + sockets {
        assert ports[k] in ports;
        return false;
      }
      assert ports[..k + 1] == ports[..k] + [ports[k]];
      sockets := sockets + {ports[k]};
    }
    return true;
  }

  /** The first usable candidate in slots: every slot nearer to the seed is taken. */
  lemma FirstVacant(o: Options, dirs: set<Lock>, busy: set<int>, attempt: nat) returns (k: int)
    requires attempt < o.slots && Usable(o, Candidate(o, attempt), dirs, busy)
    requires forall j: nat | j < attempt && j < o.slots :: !Usable(o, Candidate(o, j), dirs, busy)
    ensures 0 <= k < o.slots && Candidate(o, attempt) == o.base + k * o.stride && Vacant(o.base + k * o.stride, o.relayCount, dirs, busy)
    ensures forall j | 0 <= j < o.slots && (j - o.seed) % o.slots < (k - o.seed) % o.slots ::
      !Vacant(o.base + j * o.stride, o.relayCount, dirs, busy)
  {
    k := AttemptAtSlot(o, attempt);
    UsableIsVacant(o, o.base + k * o.stride, dirs, busy);
    hide Usable, Vacant, Candidate;
    forall j | 0 <= j < o.slots && (j - o.seed) % o.slots < (k - o.seed) % o.slots
      ensures !Vacant(o.base + j * o.stride, o.relayCount, dirs, busy)
    {
      EarlierSlot(o, dirs, busy, attempt, k, j);
    }
  }

  lemma EarlierSlot(o: Options, dirs: set<Lock>, busy: set<int>, attempt: nat, k: int, j: int)
    requires forall i: nat | i < attempt && i < o.slots :: !Usable(o, Candidate(o, i), dirs, busy)
    requires 0 <= j < o.slots && Turns(o, k) == attempt && (j - o.seed) % o.slots < (k - o.seed) % o.slots
    ensures !Vacant(o.base + j * o.stride, o.relayCount, dirs, busy)
  {
    assert Turns(o, j) < attempt;
    hide Usable, Vacant, Candidate, Turns;
    CandidateOfSlot(o, j);
    UsableIsVacant(o, o.base + j * o.stride, dirs, busy);
  }

  lemma NoneVacant(o: Options, dirs: set<Lock>, busy: set<int>)
    requires forall j: nat | j < o.slots :: !Usable(o, Candidate(o, j), dirs, busy)
    ensures forall k | 0 <= k < o.slots :: !Vacant(o.base + k * o.stride, o.relayCount, dirs, busy)
  {
    hide Usable, Vacant, Candidate;
    forall k | 0 <= k < o.slots ensures !Vacant(o.base + k * o.stride, o.relayCount, dirs, busy) {
      CandidateOfSlot(o, k);
      UsableIsVacant(o, o.base + k * o.stride, dirs, busy);
    }
  }

  class LockRoot {
    var dirs: set<Lock>
    var manifests: map<int, seq<int>>

    /** Locks the ports in the order given until one is taken. */
    method AcquirePorts(ports: seq<int>) returns (acquired: seq<int>)
      requires Ascending(ports)
      modifies this`dirs
      ensures acquired <= ports
      ensures dirs == old(dirs) + PortLocks(acquired) && PortLocks(acquired) !! old(dirs)
      ensures |acquired| < |ports| ==> Port(ports[|acquired|]) in old(dirs)
    {
      acquired := [];
      while |acquired| < |ports|
        invariant acquired <= ports
        invariant dirs == old(dirs) + PortLocks(acquired) && PortLocks(acquired) !! old(dirs)
        decreases |ports| - |acquired|
      {
        var port := ports[|acquired|];
        assert port !in acquired;
        if Port(port) in dirs { return; }
        dirs := dirs + {Port(port)};
        acquired := acquired + [port];
      }
    }

    /** Removes the port locks in reverse, then the reservation directory. */
    method RollBack(c: int, acquired: seq<int>)
      modifies this`dirs
      ensures dirs == old(dirs) - PortLocks(acquired) - {Reservation(c)}
    {
      var k := |acquired|;
      while k > 0
        invariant 0 <= k <= |acquired|
        invariant dirs == old(dirs) - PortLocks(acquired[k..])
      {
        k := k - 1;
        dirs := dirs - {Port(acquired[k])};
        assert acquired[k..] == [acquired[k]] + acquired[k + 1..];
        assert PortLocks(acquired[k..]) == PortLocks(acquired[k + 1..]) + {Port(acquired[k])};
      }
      assert acquired[0..] == acquired;
      dirs := dirs - {Reservation(c)};
    }

    /** One attempt: takes the block at `c` if it is usable and otherwise leaves every directory as it was. */
    method TryBlock(o: Options, c: int, busy: set<int>, full: bool) returns (outcome: Outcome)
      modifies this
      ensures outcome == if !Usable(o, c, old(dirs), busy) then NoFreeBlock else if full then WriteFailed else Reserved(c)
      ensures outcome.Reserved? ==>
        && dirs == AfterReserve(old(dirs), c, o.relayCount)
        && manifests == old(manifests)[c := BlockPorts(c, o.relayCount)]
      ensures !outcome.Reserved? ==> dirs == old(dirs) && manifests == old(manifests)
    {
      var inside := Fits(c, o.relayCount);
      if !inside || Reservation(c) in dirs { return NoFreeBlock; }
      dirs := dirs + {Reservation(c)};
      var ports := BlockPorts(c, o.relayCount);
      var acquired := AcquirePorts(ports);
      if |acquired| < |ports| {
        assert Port(ports[|acquired|]) in PortLocks(ports);
        RollBack(c, acquired);
        assert dirs == old(dirs);
        return NoFreeBlock;
      }
      assert acquired == ports;
      var free := PortsAreAvailable(RequiredPorts(c, o.relayCount), busy);
      if !free || full {
        RollBack(c, acquired);
        assert dirs == old(dirs);
        return if free then WriteFailed else NoFreeBlock;
      }
      manifests := manifests[c := acquired];
      return Reserved(c);
    }

    /**
     `reserve_port_block`: takes the first usable candidate, in the order of attempts, with all of its locks and its
     manifest; if there is none, or the manifest cannot be written, nothing is left behind.
     */
    method ReservePortBlock(o: Options, busy: set<int>, full: bool) returns (outcome: Outcome)
      modifies this
      ensures outcome.NoFreeBlock? <==> forall k | 0 <= k < o.slots :: !Vacant(o.base + k * o.stride, o.relayCount, old(dirs), busy)
      ensures outcome.WriteFailed? ==> full
      ensures outcome.Reserved? ==> !full && exists k | 0 <= k < o.slots ::
        && outcome.candidate == o.base + k * o.stride && Vacant(o.base + k * o.stride, o.relayCount, old(dirs), busy)
        && forall j | 0 <= j < o.slots && (j - o.seed) % o.slots < (k - o.seed) % o.slots ::
             !Vacant(o.base + j * o.stride, o.relayCount, old(dirs), busy)
      ensures outcome.Reserved? ==>
        && (forall l :: l in dirs <==> l in old(dirs) || match l case Reservation(d) => d == outcome.candidate
                                                                 case Port(p) => InBlock(p, outcome.candidate, o.relayCount))
        && manifests == old(manifests)[outcome.candidate := BlockPorts(outcome.candidate, o.relayCount)]
      ensures !outcome.Reserved? ==> dirs == old(dirs) && manifests == old(manifests)
    {
      ghost var was := dirs;
      var attempt := 0;
      while attempt < o.slots
        invariant 0 <= attempt
        invariant dirs == old(dirs) && manifests == old(manifests)
        invariant forall j: nat | j < attempt && j < o.slots :: !Usable(o, Candidate(o, j), old(dirs), busy)
      {
        outcome := TryBlock(o, Candidate(o, attempt), busy, full);
        if !outcome.NoFreeBlock? {
          ghost var k := FirstVacant(o, was, busy, attempt);
          forall l ensures l in AfterReserve(was, Candidate(o, attempt), o.relayCount) <==>
            l in was || match l case Reservation(d) => d == Candidate(o, attempt)
                                case Port(p) => InBlock(p, Candidate(o, attempt), o.relayCount)
          {
            ReserveAdds(was, Candidate(o, attempt), o.relayCount, l);
          }
          return;
        }
        attempt := attempt + 1;
      }
      NoneVacant(o, was, busy);
      return NoFreeBlock;
    }

    /** `release_port_block`: removes the locks listed in the manifest, the manifest and the reservation directory. */
    method ReleasePortBlock(c: int)
      modifies this
      ensures dirs == AfterRelease(old(dirs), old(manifests), c)
      ensures manifests == old(manifests) - {c}
    {
      if c in manifests {
        var lines := manifests[c];
        for k := 0 to |lines|
          invariant dirs == old(dirs) - PortLocks(lines[..k]) && manifests == old(manifests)
        {
          assert lines[..k + 1] == lines[..k] + [lines[k]];
          assert PortLocks(lines[..k + 1]) == PortLocks(lines[..k]) + {Port(lines[k])};
          dirs := dirs - {Port(lines[k])};
        }
        assert lines[..|lines|] == lines;
        manifests := manifests - {c};
      }
      dirs := dirs - {Reservation(c)};
    }
  }

  /** `min(ports) < 1024 or max(ports) > 65535` fails. */
  method Fits(c: int, relayCount: nat) returns (ok: bool)
    ensures ok <==> InRange(c, relayCount)
  {
    var ports := RequiredPorts(c, relayCount);
    for k := 0 to |ports|
      invariant forall i | 0 <= i < k :: 1024 <= ports[i] <= 65535
    {
      if !(1024 <= ports[k] <= 65535) {
        assert ports[k] in ports;
        return false;
      }
    }
    return true;
  }

  /** Releasing a block right after reserving it restores the lock root. */
  lemma ReleaseUndoesReserve(o: Options, c: int, dirs: set<Lock>, manifests: map<int, seq<int>>, busy: set<int>)
    requires Usable(o, c, dirs, busy) && c !in manifests
    ensures var held := manifests[c := BlockPorts(c, o.relayCount)];
      AfterRelease(AfterReserve(dirs, c, o.relayCount), held, c) == dirs && held - {c} == manifests
  {
    hide Bindable, InRange;
    var held := manifests[c := BlockPorts(c, o.relayCount)];
    assert held[c] == BlockPorts(c, o.relayCount);
    assert AfterRelease(AfterReserve(dirs, c, o.relayCount), held, c) == dirs;
    assert held - {c} == manifests;
  }

  /** The port 301 above the base is asked for a second time as a relay port once there are more than 300 relays. */
  lemma BlockIsDistinct(base: int, relayCount: nat)
    ensures Distinct(RequiredPorts(base, relayCount)) <==> relayCount <= 300
  {
    var ports := RequiredPorts(base, relayCount);
    assert forall i | 3 <= i < 3 + relayCount :: ports[i] == base + i - 2;
    assert forall i | 3 + relayCount <= i < 3 + 2 * relayCount :: ports[i] == base + 1001 + (i - 3 - relayCount);
    if relayCount > 300 {
      assert ports[1] == ports[303];
    }
  }

  /** With more than 300 relays no block is ever usable, whatever the lock root and the other processes look like. */
  lemma ManyRelaysNeverFit(o: Options, c: int, dirs: set<Lock>, busy: set<int>)
    ensures o.relayCount > 300 ==> !Usable(o, c, dirs, busy)
    ensures o.relayCount <= 300 ==>
      (Usable(o, c, {}, {}) <==> 1024 <= c && c + (if o.relayCount == 0 then 302 else 1000 + o.relayCount) <= 65535)
  {
    BlockIsDistinct(c, o.relayCount);
    var ports := RequiredPorts(c, o.relayCount);
    assert ports[0] in ports && ports[2] in ports && ports[|ports| - 1] in ports;
    assert ports[0] == c && ports[2] == c + 302;
    assert o.relayCount > 0 ==> ports[|ports| - 1] == c + 1000 + o.relayCount;
    assert forall i | 3 <= i < 3 + o.relayCount :: ports[i] == c + i - 2;
    assert forall i | 3 + o.relayCount <= i < |ports| :: ports[i] == c + 1001 + (i - 3 - o.relayCount);
  }
}
