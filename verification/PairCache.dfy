/**
 The puncher's cache of successful pairs: at most five, one per remote address, the latest first, kept in a file that
 every save rewrites and every start reads.
 */
module PairCache {
  import opened Wrappers
  import opened Arithmetic
  import opened Prediction

  const CACHE_LIMIT := 5
  const TTL := 3600

  datatype Pair = Pair(remoteIp: string, mappedPort: Option<int>, base: int, step: int, range: seq<int>,
                       pattern: Option<string>, ttl: int, ts: int)

  function Without(pairs: seq<Pair>, ip: string): seq<Pair>
    decreases |pairs|
  {
    if pairs == [] then []
    else (if pairs[0].remoteIp == ip then [] else [pairs[0]]) + Without(pairs[1..], ip)
  }

  function Take(pairs: seq<Pair>, n: nat): seq<Pair> {
    if |pairs| <= n then pairs else pairs[..n]
  }

  /** The file after saving a pair for an address that may be in it already. */
  function Saved(pairs: seq<Pair>, p: Pair): seq<Pair> {
    Take([p] + Without(pairs, p.remoteIp), CACHE_LIMIT)
  }

  /** An entry with a zero timestamp never expires. */
  predicate Expired(p: Pair, now: real) {
    p.ts != 0 && now - p.ts as real > p.ttl as real
  }

  function Usable(range: seq<int>): seq<int>
    decreases |range|
  {
    if range == [] then [] else (if 0 <= range[0] <= 0xFFFF then [range[0]] else []) + Usable(range[1..])
  }

  /** The ports to start from: those of the first entry for the address, unless that one has expired. */
  function Hint(pairs: seq<Pair>, ip: string, now: real): Option<seq<int>>
    decreases |pairs|
  {
    if pairs == [] then None
    else if pairs[0].remoteIp == ip then
      if Expired(pairs[0], now) then None else Some(Usable(pairs[0].range))
    else Hint(pairs[1..], ip, now)
  }

  lemma UsableUnfolds(range: seq<int>, j: nat)
    requires j < |range|
    ensures Usable(range[j..]) == (if 0 <= range[j] <= 0xFFFF then [range[j]] else []) + Usable(range[j + 1..])
  {
    assert range[j..][1..] == range[j + 1..];
  }

  method UsablePorts(range: seq<int>) returns (ports: seq<int>)
    ensures ports == Usable(range)
  {
    ports := [];
    assert range[0..] == range;
    for j := 0 to |range|
      invariant ports + Usable(range[j..]) == Usable(range)
    {
      UsableUnfolds(range, j);
      hide Usable;
      if 0 <= range[j] <= 0xFFFF { ports := ports + [range[j]]; }
    }
    assert range[|range|..] == [];
  }

  class CacheFile {
    /** `None` while the file does not exist. */
    var content: Option<seq<Pair>>

    function Pairs(): seq<Pair>
      reads this
    {
      if content.None? then [] else content.value
    }

    constructor ()
      ensures content == None
    {
      content := None;
    }

    /** `_save_cache`: predicts the range for the pair and puts it first; a failed write leaves the file as it was. */
    method Save(remoteIp: string, mappedPort: Option<int>, base: int, step: int, count: int, pattern: Option<string>,
                now: int, writable: bool)
      returns (saved: Pair)
      modifies this
      ensures saved == Pair(remoteIp, mappedPort, base, step, saved.range, pattern, 3600, now)
      ensures forall p :: p in saved.range <==> p in Window(base, step, count)
      ensures Pairs() == if writable then Saved(old(Pairs()), saved) else old(Pairs())
    {
      var range := PredictNearby(base, step, count, true);
      saved := Pair(remoteIp, mappedPort, base, step, range, pattern, TTL, now);
      var before := Pairs();
      var kept: seq<Pair> := [];
      assert before[0..] == before;
      for k := 0 to |before|
        invariant kept + Without(before[k..], remoteIp) == Without(before, remoteIp)
      {
        if before[k].remoteIp != remoteIp { kept := kept + [before[k]]; }
      }
      if writable { content := Some(Take([saved] + kept, CACHE_LIMIT)); }
    }

    /** `_load_cache_hint`. */
    method Load(remoteIp: string, now: real) returns (hint: Option<seq<int>>)
      ensures hint == Hint(Pairs(), remoteIp, now)
    {
      var pairs := Pairs();
      assert pairs[0..] == pairs;
      for k := 0 to |pairs|
        invariant Hint(pairs, remoteIp, now) == Hint(pairs[k..], remoteIp, now)
      {
        if pairs[k].remoteIp == remoteIp {
          if Expired(pairs[k], now) { return None; }
          var ports := UsablePorts(pairs[k].range);
          return Some(ports);
        }
      }
      return None;
    }
  }

  // ----- histories -----

  /** The file after a history of successful saves, from an empty one. */
  function After(history: seq<Pair>): seq<Pair>
    decreases |history|
  {
    if history == [] then [] else Saved(After(history[..|history| - 1]), history[|history| - 1])
  }

  function Ips(history: seq<Pair>): set<string> {
    set p | p in history :: p.remoteIp
  }

  /** Reading the history backwards and noting each address the first time it comes. */
  function NewestFirst(history: seq<Pair>, seen: set<string>): seq<Pair>
    decreases |history|
  {
    if history == [] then []
    else
      var before, p := history[..|history| - 1], history[|history| - 1];
      if p.remoteIp in seen then NewestFirst(before, seen) else [p] + NewestFirst(before, seen + {p.remoteIp})
  }

  ghost predicate DistinctIps(pairs: seq<Pair>) {
    forall i, j | 0 <= i < j < |pairs| :: pairs[i].remoteIp != pairs[j].remoteIp
  }

  lemma {:induction false} NewestFirstDistinct(history: seq<Pair>, seen: set<string>)
    ensures DistinctIps(NewestFirst(history, seen))
    ensures forall i | 0 <= i < |NewestFirst(history, seen)| :: NewestFirst(history, seen)[i].remoteIp !in seen
    decreases |history|
  {
    if history != [] {
      var before, p := history[..|history| - 1], history[|history| - 1];
      NewestFirstDistinct(before, seen);
      NewestFirstDistinct(before, seen + {p.remoteIp});
    }
  }

  /** Leaving one more address out is the same as removing it afterwards. */
  lemma {:induction false} SeenIsRemoved(history: seq<Pair>, seen: set<string>, ip: string)
    ensures NewestFirst(history, seen + {ip}) == Without(NewestFirst(history, seen), ip)
    decreases |history|
  {
    if history != [] {
      var before, p := history[..|history| - 1], history[|history| - 1];
      SeenIsRemoved(before, seen, ip);
      SeenIsRemoved(before, seen + {p.remoteIp}, ip);
      if p.remoteIp !in seen {
        assert seen + {p.remoteIp} + {ip} == seen + {ip} + {p.remoteIp};
        var rest := NewestFirst(before, seen + {p.remoteIp});
        assert ([p] + rest)[1..] == rest;
        if p.remoteIp == ip {
          NewestFirstDistinct(before, seen + {ip});
          WithoutAbsent(rest, ip);
          assert seen + {ip} + {ip} == seen + {ip};
        }
      }
    }
  }

  lemma {:induction false} WithoutAbsent(pairs: seq<Pair>, ip: string)
    requires forall i | 0 <= i < |pairs| :: pairs[i].remoteIp != ip
    ensures Without(pairs, ip) == pairs
    decreases |pairs|
  {
    if pairs != [] {
      WithoutAbsent(pairs[1..], ip);
      assert pairs == [pairs[0]] + pairs[1..];
    }
  }

  /** Cutting before a removal loses nothing that would be kept after it, as long as each address comes once. */
  lemma {:induction false} CutThenRemove(pairs: seq<Pair>, ip: string, n: nat)
    requires DistinctIps(pairs)
    ensures Take(Without(Take(pairs, n + 1), ip), n) == Take(Without(pairs, ip), n)
    decreases |pairs|
  {
    if |pairs| > n + 1 {
      if pairs[0].remoteIp == ip {
        var rest := pairs[1..];
        WithoutAbsent(rest, ip);
        assert pairs[..n + 1][1..] == rest[..n];
        WithoutAbsent(rest[..n], ip);
      } else if n > 0 {
        var p, rest := pairs[0], pairs[1..];
        CutThenRemove(rest, ip, n - 1);
        assert pairs[..n + 1] == [p] + rest[..n];
        assert ([p] + rest[..n])[1..] == rest[..n];
        TakeAfter(p, Without(rest[..n], ip), n - 1);
        TakeAfter(p, Without(rest, ip), n - 1);
      }
    }
  }

  /** The file is the history read backwards, each address once, cut after five. */
  lemma {:induction false} AfterIsNewestFirst(history: seq<Pair>)
    ensures After(history) == Take(NewestFirst(history, {}), CACHE_LIMIT)
    decreases |history|
  {
    if history != [] {
      var before, p := history[..|history| - 1], history[|history| - 1];
      AfterIsNewestFirst(before);
      SeenIsRemoved(before, {}, p.remoteIp);
      NewestFirstDistinct(before, {});
      CutThenRemove(NewestFirst(before, {}), p.remoteIp, CACHE_LIMIT - 1);
      TakeAfter(p, Without(After(before), p.remoteIp), CACHE_LIMIT - 1);
      TakeAfter(p, NewestFirst(before, {} + {p.remoteIp}), CACHE_LIMIT - 1);
    }
  }

  lemma TakeAfter(p: Pair, pairs: seq<Pair>, n: nat)
    ensures Take([p] + pairs, n + 1) == [p] + Take(pairs, n)
  {
  }

  /** The latest save for an address stands behind exactly the addresses saved since. */
  lemma {:induction false} PlaceInNewestFirst(history: seq<Pair>, seen: set<string>, i: nat)
    requires i < |history| && history[i].remoteIp !in seen + Ips(history[i + 1..])
    ensures var place := |Ips(history[i + 1..]) - seen|;
      place < |NewestFirst(history, seen)| && NewestFirst(history, seen)[place] == history[i]
    decreases |history|
  {
    var before, p := history[..|history| - 1], history[|history| - 1];
    if i == |history| - 1 {
      assert Ips(history[i + 1..]) - seen == {};
    } else {
      assert before[i + 1..] + [p] == history[i + 1..];
      IpsOfLast(before[i + 1..], p, seen);
      hide Ips;
      PlaceInNewestFirst(before, if p.remoteIp in seen then seen else seen + {p.remoteIp}, i);
    }
  }

  lemma IpsOfLast(history: seq<Pair>, p: Pair, seen: set<string>)
    ensures Ips(history + [p]) == Ips(history) + {p.remoteIp}
    ensures if p.remoteIp in seen then Ips(history + [p]) - seen == Ips(history) - seen
            else |Ips(history + [p]) - seen| == |Ips(history) - (seen + {p.remoteIp})| + 1
  {
    assert (history + [p])[|history|] == p;
    assert forall q | q in history :: q in history + [p];
    assert Ips(history + [p]) == Ips(history) + {p.remoteIp};
    if p.remoteIp !in seen {
      assert Ips(history + [p]) - seen == (Ips(history) - (seen + {p.remoteIp})) + {p.remoteIp};
    }
  }

  lemma {:induction false} NewestFirstSize(history: seq<Pair>, seen: set<string>)
    ensures |NewestFirst(history, seen)| == |Ips(history) - seen|
    decreases |history|
  {
    if history == [] {
      assert Ips(history) - seen == {};
    } else {
      var before, p := history[..|history| - 1], history[|history| - 1];
      assert history == before + [p];
      IpsOfLast(before, p, seen);
      hide Ips;
      NewestFirstSize(before, if p.remoteIp in seen then seen else seen + {p.remoteIp});
    }
  }

  /**
   After any history the file holds an entry for each of the five most recently saved addresses, or for all if there
   are fewer, and no other: the latest pair of an address stands at the place given by the addresses saved since.
   */
  lemma CacheHoldsNewestFive(history: seq<Pair>, i: nat)
    requires i < |history| && history[i].remoteIp !in Ips(history[i + 1..])
    ensures |After(history)| == Min(CACHE_LIMIT, |Ips(history)|) && DistinctIps(After(history))
    ensures var place := |Ips(history[i + 1..])|;
      if place < CACHE_LIMIT then place < |After(history)| && After(history)[place] == history[i]
      else history[i].remoteIp !in Ips(After(history))
  {
    AfterIsNewestFirst(history);
    PlaceInNewestFirst(history, {}, i);
    NewestFirstSize(history, {});
    NewestFirstDistinct(history, {});
    assert Ips(history) - {} == Ips(history) && Ips(history[i + 1..]) - {} == Ips(history[i + 1..]);
  }

  lemma {:induction false} HintIsFirst(pairs: seq<Pair>, k: nat, ip: string, now: real)
    requires k < |pairs| && pairs[k].remoteIp == ip && DistinctIps(pairs)
    ensures Hint(pairs, ip, now) == if Expired(pairs[k], now) then None else Some(Usable(pairs[k].range))
    decreases |pairs|
  {
    if k > 0 {
      HintIsFirst(pairs[1..], k - 1, ip, now);
    }
  }

  lemma {:induction false} HintAbsent(pairs: seq<Pair>, ip: string, now: real)
    requires ip !in Ips(pairs)
    ensures Hint(pairs, ip, now) == None
    decreases |pairs|
  {
    if pairs != [] {
      assert pairs[0] in pairs;
      assert forall p | p in pairs[1..] :: p in pairs;
      HintAbsent(pairs[1..], ip, now);
    }
  }

  /** The port numbers of a range, in its order. */
  ghost function PortsIn(range: seq<int>): seq<int>
    decreases |range|
  {
    if range == [] then []
    else PortsIn(range[..|range| - 1]) + if 0 <= range[|range| - 1] < 0x1_0000 then [range[|range| - 1]] else []
  }

  lemma {:induction false} UsableArePorts(range: seq<int>)
    ensures Usable(range) == PortsIn(range)
    decreases |range|
  {
    if range != [] {
      var n := |range| - 1;
      UsableArePorts(range[..n]);
      UsableAppends(range[..n], range[n]);
      assert range == range[..n] + [range[n]];
    }
  }

  lemma {:induction false} UsableAppends(range: seq<int>, port: int)
    ensures Usable(range + [port]) == Usable(range) + if 0 <= port < 0x1_0000 then [port] else []
    decreases |range|
  {
    var all := range + [port];
    if range == [] {
      assert all == [port];
      var none: seq<int> := all[1..];
      assert Usable(none) == [];
    } else {
      UsableAppends(range[1..], port);
      assert all[1..] == range[1..] + [port] && all[0] == range[0];
      var rest := Usable(range[1..]);
      assert Usable(all) == (if 0 <= range[0] <= 0xFFFF then [range[0]] else []) + Usable(all[1..]);
    }
  }

  /**
   A lookup gives the port numbers of the range last saved for the address, exactly when fewer than five other addresses
   were saved since and the entry is no older than its time to live, or has no time.
   */
  lemma LookupGivesLatest(history: seq<Pair>, i: nat, now: real)
    requires i < |history| && history[i].remoteIp !in Ips(history[i + 1..])
    ensures var hint, p, since := Hint(After(history), history[i].remoteIp, now), history[i], set q | q in history[i + 1..] :: q.remoteIp;
      && (hint.Some? <==> |since| < 5 && (p.ts == 0 || now <= p.ts as real + p.ttl as real))
      && (hint.Some? ==> hint.value == PortsIn(p.range))
  {
    CacheHoldsNewestFive(history, i);
    UsableArePorts(history[i].range);
    var place := |Ips(history[i + 1..])|;
    if place < CACHE_LIMIT {
      HintIsFirst(After(history), place, history[i].remoteIp, now);
    } else {
      HintAbsent(After(history), history[i].remoteIp, now);
    }
    assert (set q | q in history[i + 1..] :: q.remoteIp) == Ips(history[i + 1..]);
    hide After, Usable, PortsIn, Hint, Ips;
  }

  lemma {:induction false} UsableAll(range: seq<int>)
    requires forall i | 0 <= i < |range| :: 0 <= range[i] <= 0xFFFF
    ensures Usable(range) == range
    decreases |range|
  {
    if range != [] {
      UsableAll(range[1..]);
      assert range == [range[0]] + range[1..];
    }
  }

  /** A range predicted with a 16-bit step is given back whole. */
  lemma PredictedRangeIsUsable(range: seq<int>, base: int, step: int, count: int)
    requires 0 <= step <= 0xFFFF && forall i | 0 <= i < |range| :: range[i] in Window(base, step, count)
    ensures Usable(range) == range
  {
    forall i | 0 <= i < |range| ensures 0 <= range[i] <= 0xFFFF {
      var d :| -count <= d < count + 1 && d != 0 && range[i] == Point(base, step, d);
    }
    UsableAll(range);
  }

  lemma {:induction false} NewestFirstIsFromHistory(history: seq<Pair>, seen: set<string>)
    ensures Ips(NewestFirst(history, seen)) <= Ips(history)
    decreases |history|
  {
    if history != [] {
      var before, p := history[..|history| - 1], history[|history| - 1];
      assert history == before + [p];
      IpsOfLast(before, p, seen);
      NewestFirstIsFromHistory(before, seen);
      NewestFirstIsFromHistory(before, seen + {p.remoteIp});
    }
  }

  /** An address that was never saved gets no hint. */
  lemma StrangersGetNoHint(history: seq<Pair>, ip: string, now: real)
    requires ip !in Ips(history)
    ensures Hint(After(history), ip, now) == None
  {
    AfterIsNewestFirst(history);
    NewestFirstIsFromHistory(history, {});
    var all := NewestFirst(history, {});
    assert forall p | p in Take(all, CACHE_LIMIT) :: p in all;
    HintAbsent(After(history), ip, now);
  }
}
