/** The research simulator's NAT object, updated in place, with its allocation loop. */
module SimNatObjects {
  import opened Wrappers
  import opened SimNat

  lemma RawAllocUnrolls(s: SimState, attempts: nat)
    requires s.portPool > 0 && attempts > 0
    ensures RawAlloc(s, attempts) == if Taken(s, Draw(s)) then RawAlloc(Drawn(s), attempts - 1) else (Drawn(s), Some(Draw(s)))
  {
  }

  lemma RawAllocEnds(s: SimState)
    requires s.portPool > 0
    ensures RawAlloc(s, 0) == (s, None)
  {
  }

  class Nat {
    const vipSelf: nat
    const portBase: int
    const portPool: int
    const mapping: Behaviour
    const allocation: Allocation
    const step: int
    const filtering: Filtering
    const words: nat -> int
    var nextPort: int
    var cursor: nat
    var mappings: map<SimKey, SimMapping>
    var mappingByPort: map<int, SimKey>
    var forwarders: set<int>

    function State(): SimState
      reads this
    {
      SimState(vipSelf, portBase, portPool, mapping, allocation, step, filtering, words,
               nextPort, cursor, mappings, mappingByPort, forwarders)
    }

    /** The step of a NAT that does not allocate linearly is zero, and dynamic ports start at offset 100. */
    constructor (vipSelf: nat, portBase: int, portPool: int, mapping: Behaviour, allocation: Allocation, step: int,
                 filtering: Filtering, words: nat -> int)
      ensures State() == SimState(vipSelf, portBase, portPool, mapping, allocation, if allocation.Linear? then step else 0,
                                  filtering, words, portBase + 100, 0, map[], map[], {})
    {
      this.vipSelf, this.portBase, this.portPool := vipSelf, portBase, portPool;
      this.mapping, this.allocation, this.filtering, this.words := mapping, allocation, filtering, words;
      this.step := if allocation.Linear? then step else 0;
      nextPort, cursor, mappings, mappingByPort, forwarders := portBase + 100, 0, map[], map[], {};
    }

    /** Draw until a port is free; `None` stands for the exhausted pool. */
    method RawAllocFree() returns (port: Option<int>)
      requires portPool > 0
      modifies `nextPort, `cursor
      ensures (State(), port) == RawAlloc(old(State()), ALLOC_ATTEMPTS)
    {
      hide RawAlloc;
      var left := ALLOC_ATTEMPTS;
      while left > 0
        invariant 0 <= left
        invariant RawAlloc(State(), left) == RawAlloc(old(State()), ALLOC_ATTEMPTS)
      {
        RawAllocUnrolls(State(), left);
        var p;
        if allocation.Linear? {
          p := nextPort;
          nextPort := (p - portBase + step) % portPool + portBase;
        } else {
          p := portBase + words(cursor) % portPool;
          cursor := cursor + 1;
        }
        left := left - 1;
        if ObserverVip(State(), p).None? && p !in mappingByPort && p !in forwarders {
          return Some(p);
        }
      }
      RawAllocEnds(State());
      return None;
    }

    method GetMapping(client: Addr, vip: nat, port: int) returns (key: Option<SimKey>)
      requires portPool > 0
      modifies this
      ensures (State(), key) == MappingFor(old(State()), client, vip, port)
    {
      hide RawAlloc;
      var k := MappingKey(State(), client, vip, port);
      if k in mappings {
        mappings := mappings[k := mappings[k].(destVip := vip, destPort := port)];
        return Some(k);
      }
      var p := RawAllocFree();
      if p.None? {
        return None;
      }
      mappings := mappings[k := SimMapping(client, vip, port, p.value, false)];
      mappingByPort := mappingByPort[p.value := k];
      return Some(k);
    }

    /** Answer one Binding Request from where it asks to be answered, if the filter lets that through. */
    method Stun(r: Request) returns (reply: Option<Reply>, raised: bool)
      requires portPool > 0
      modifies this
      ensures Answer(State(), reply, raised) == HandleStun(old(State()), r)
    {
      hide MappingFor;
      var vip := ObserverVip(State(), r.observer);
      if vip.None? {
        return None, false;
      }
      assert MappingForShape(State(), r.client, vip.value, r.observer) by {
        RawAllocFinds(State(), ALLOC_ATTEMPTS);
        hide RawAlloc;
        ShapeHolds(State(), r.client, vip.value, r.observer);
      }
      var key := GetMapping(r.client, vip.value, r.observer);
      if key.None? {
        return None, true;
      }
      var m := mappings[key.value];
      var source := ChangeSource(State(), r.observer, r.change);
      if source.None? {
        return Some(Reply(r.observer, m.port)), false;
      }
      if !FilteringAllows(State(), m, ObserverVip(State(), source.value).value, source.value) {
        return None, false;
      }
      return Some(Reply(source.value, m.port)), false;
    }
  }

  /** A lookup keeps the options and finds its mapping. */
  ghost predicate MappingForShape(s: SimState, client: Addr, vip: nat, port: int)
    requires s.portPool > 0
  {
    var (s', key) := MappingFor(s, client, vip, port);
    SameOptions(s, s') && (key.Some? ==> key.value in s'.mappings)
  }

  lemma ShapeHolds(s: SimState, client: Addr, vip: nat, port: int)
    requires s.portPool > 0
    ensures MappingForShape(s, client, vip, port)
  {
    RawAllocFinds(s, ALLOC_ATTEMPTS);
    hide RawAlloc;
  }
}
