/** The server's rate limiter: a bucket of requests per remote address, renewed when it runs out and swept now and then. */
module RateLimit {
  import opened Arithmetic

  datatype Bucket = Bucket(count: int, reset: int)

  datatype Limiter = Limiter(maxEvents: int, window: int, buck: map<string, Bucket>, nextCleanup: int)

  datatype Request = Request(ip: string, now: int)

  /** A request as it was served: when its bucket began, and whether it was let through. */
  datatype Entry = Entry(ip: string, now: int, begun: int, admitted: bool)

  function Fresh(maxEvents: int, window: int, now: int): Limiter {
    Limiter(maxEvents, window, map[], now + window)
  }

  /** Once the sweep is due, no bucket whose time is up stays. */
  function Sweep(l: Limiter, now: int): Limiter {
    if now < l.nextCleanup then l
    else l.(buck := map key | key in l.buck && now < l.buck[key].reset :: l.buck[key], nextCleanup := now + l.window)
  }

  /** The bucket that a request draws on after the sweep, its own draw included. */
  function Drawn(l: Limiter, r: Request): Bucket {
    if r.ip !in l.buck || r.now > l.buck[r.ip].reset then Bucket(1, r.now + l.window)
    else Bucket(l.buck[r.ip].count + 1, l.buck[r.ip].reset)
  }

  function Serve(l: Limiter, r: Request): (Limiter, Entry) {
    var swept := Sweep(l, r.now);
    var b := Drawn(swept, r);
    (swept.(buck := swept.buck[r.ip := b]), Entry(r.ip, r.now, b.reset - l.window, b.count <= l.maxEvents))
  }

  class RateLimiter {
    const maxEvents: int
    const window: int
    var buck: map<string, Bucket>
    var nextCleanup: int

    function State(): Limiter
      reads this
    {
      Limiter(maxEvents, window, buck, nextCleanup)
    }

    constructor (maxEvents: int, window: int, now: int)
      ensures State() == Fresh(maxEvents, window, now)
    {
      this.maxEvents, this.window := maxEvents, window;
      buck, nextCleanup := map[], now + window;
    }

    /** Goes over the buckets and deletes those whose time is up. */
    method DeleteExpired(now: int)
      modifies this`buck
      ensures buck == map key | key in old(buck) && now < old(buck)[key].reset :: old(buck)[key]
    {
      var keys := buck.Keys;
      while exists key :: key in keys
        invariant keys <= old(buck).Keys
        invariant buck == map key | key in old(buck) && (key in keys || now < old(buck)[key].reset) :: old(buck)[key]
        decreases |keys|
      {
        var key :| key in keys;
        keys := keys - {key};
        if now >= buck[key].reset { buck := buck - {key}; }
      }
    }

    /** The handler, up to the decision to pass the request on. */
    method Handle(r: Request) returns (admitted: bool)
      modifies this`buck, this`nextCleanup
      ensures State() == Serve(old(State()), r).0
      ensures admitted == Serve(old(State()), r).1.admitted
    {
      if r.now >= nextCleanup {
        DeleteExpired(r.now);
        nextCleanup := r.now + window;
      }
      assert State() == Sweep(old(State()), r.now);
      ghost var swept := buck;
      if r.ip !in buck || r.now > buck[r.ip].reset {
        buck := buck[r.ip := Bucket(0, r.now + window)];
      }
      buck := buck[r.ip := Bucket(buck[r.ip].count + 1, buck[r.ip].reset)];
      assert buck == swept[r.ip := buck[r.ip]];
      admitted := buck[r.ip].count <= maxEvents;
    }
  }

  // ----- histories -----

  function Last(requests: seq<Request>, start: int): int {
    if requests == [] then start else requests[|requests| - 1].now
  }

  ghost predicate Ordered(requests: seq<Request>, start: int)
    decreases |requests|
  {
    requests != [] ==>
      var before := requests[..|requests| - 1];
      Ordered(before, start) && Last(before, start) <= requests[|requests| - 1].now
  }

  /** The limiter and the log after serving the requests in order. */
  function Serving(l: Limiter, requests: seq<Request>): (Limiter, seq<Entry>)
    decreases |requests|
  {
    if requests == [] then (l, [])
    else
      var (before, log) := Serving(l, requests[..|requests| - 1]);
      var (after, entry) := Serve(before, requests[|requests| - 1]);
      (after, log + [entry])
  }

  function Limit(l: Limiter): nat {
    if l.maxEvents < 0 then 0 else l.maxEvents
  }

  /** How many requests of one address were let through on the bucket begun at a given time. */
  function Granted(log: seq<Entry>, ip: string, begun: int): nat
    decreases |log|
  {
    if log == [] then 0
    else
      var e := log[|log| - 1];
      Granted(log[..|log| - 1], ip, begun) + if e.ip == ip && e.begun == begun && e.admitted then 1 else 0
  }

  /** How many requests of one address were let through from `from` to just before `till`. */
  function GrantedBetween(log: seq<Entry>, ip: string, from: int, till: int): nat
    decreases |log|
  {
    if log == [] then 0
    else
      var e := log[|log| - 1];
      GrantedBetween(log[..|log| - 1], ip, from, till) + if e.ip == ip && from <= e.now < till && e.admitted then 1 else 0
  }

  // ----- what one request keeps -----

  /** A request falls into the time of its bucket, and every bucket but the running one is over. */
  ghost predicate Timed(l: Limiter, log: seq<Entry>, ip: string, last: int) {
    forall i | 0 <= i < |log| && log[i].ip == ip ::
      && log[i].begun <= log[i].now <= log[i].begun + l.window
      && if ip !in l.buck then log[i].begun + l.window <= last
         else log[i].begun == l.buck[ip].reset - l.window || log[i].begun + l.window <= l.buck[ip].reset - l.window
  }

  /** The running bucket counts what it has let through, up to the limit. */
  ghost predicate Counted(l: Limiter, log: seq<Entry>, ip: string, last: int) {
    ip in l.buck ==>
      l.buck[ip].count >= 1 && l.buck[ip].reset - l.window <= last
      && Granted(log, ip, l.buck[ip].reset - l.window) == Min(l.buck[ip].count, Limit(l))
  }

  ghost predicate Spaced(log: seq<Entry>, ip: string, window: int) {
    forall i, j | 0 <= i < |log| && 0 <= j < |log| && log[i].ip == ip && log[j].ip == ip && log[i].begun < log[j].begun ::
      log[i].begun + window <= log[j].begun
  }

  ghost predicate Limited(log: seq<Entry>, ip: string, limit: nat) {
    forall begun :: Granted(log, ip, begun) <= limit
  }

  /** What the log says about an address and its bucket, at time `last`. */
  ghost predicate Coherent(l: Limiter, log: seq<Entry>, ip: string, last: int) {
    && Timed(l, log, ip, last) && Counted(l, log, ip, last)
    && Spaced(log, ip, l.window) && Limited(log, ip, Limit(l))
  }

  /** The bucket begun then was begun by a request that was let through at once. */
  ghost predicate HasOpening(log: seq<Entry>, ip: string, begun: int) {
    Entry(ip, begun, begun, true) in log
  }

  ghost predicate Opened(l: Limiter, log: seq<Entry>, ip: string) {
    && (forall i | 0 <= i < |log| && log[i].ip == ip :: HasOpening(log, ip, log[i].begun))
    && (ip in l.buck ==> HasOpening(log, ip, l.buck[ip].reset - l.window))
  }

  lemma DrawOpens(l: Limiter, log: seq<Entry>, r: Request, ip: string)
    requires l.maxEvents >= 1 && Opened(l, log, ip)
    ensures var (after, e) := Serve(l, r); Opened(after, log + [e], ip)
  {
    var (after, e) := Serve(l, r);
    var more := log + [e];
    assert more[|log|] == e;
    forall begun | HasOpening(log, ip, begun) ensures HasOpening(more, ip, begun) {
    }
    if r.ip == ip {
      var swept := Sweep(l, r.now);
      if ip !in swept.buck || r.now > swept.buck[ip].reset {
        assert e == Entry(ip, e.begun, e.begun, true);
      }
      assert HasOpening(more, ip, e.begun);
    }
  }

  lemma {:induction false} ServingOpens(l: Limiter, requests: seq<Request>, ip: string, start: int)
    requires l.maxEvents >= 1 && l == Fresh(l.maxEvents, l.window, start)
    ensures var (after, log) := Serving(l, requests); after.maxEvents == l.maxEvents && Opened(after, log, ip)
    decreases |requests|
  {
    if requests != [] {
      var before, r := requests[..|requests| - 1], requests[|requests| - 1];
      ServingOpens(l, before, ip, start);
      var (mid, log) := Serving(l, before);
      DrawOpens(mid, log, r, ip);
      hide Opened;
    }
  }

  lemma SweepKeeps(l: Limiter, log: seq<Entry>, ip: string, last: int, now: int)
    requires l.window > 0 && last <= now && Coherent(l, log, ip, last)
    ensures Coherent(Sweep(l, now), log, ip, now)
  {
  }

  lemma {:induction false} GrantedNone(log: seq<Entry>, ip: string, begun: int)
    requires forall i | 0 <= i < |log| && log[i].ip == ip :: log[i].begun != begun
    ensures Granted(log, ip, begun) == 0
    decreases |log|
  {
    if log != [] {
      GrantedNone(log[..|log| - 1], ip, begun);
    }
  }

  lemma GrantedAppends(log: seq<Entry>, e: Entry, ip: string, begun: int)
    ensures Granted(log + [e], ip, begun)
            == Granted(log, ip, begun) + if e.ip == ip && e.begun == begun && e.admitted then 1 else 0
  {
    assert (log + [e])[..|log|] == log;
  }

  lemma DrawKeepsTimes(l: Limiter, log: seq<Entry>, r: Request, ip: string)
    requires l.window > 0 && Timed(l, log, ip, r.now) && Spaced(log, ip, l.window) && r.now < l.nextCleanup
    requires ip in l.buck ==> l.buck[ip].reset - l.window <= r.now
    ensures var (after, e) := Serve(l, r); Timed(after, log + [e], ip, r.now) && Spaced(log + [e], ip, l.window)
  {
  }

  lemma DrawKeepsCounts(l: Limiter, log: seq<Entry>, r: Request, ip: string)
    requires l.window > 0 && Timed(l, log, ip, r.now) && r.now < l.nextCleanup
    requires Counted(l, log, ip, r.now) && Limited(log, ip, Limit(l))
    ensures var (after, e) := Serve(l, r); Counted(after, log + [e], ip, r.now) && Limited(log + [e], ip, Limit(l))
  {
    var (after, e) := Serve(l, r);
    forall begun
      ensures Granted(log + [e], ip, begun)
              == Granted(log, ip, begun) + if e.ip == ip && e.begun == begun && e.admitted then 1 else 0
    {
      GrantedAppends(log, e, ip, begun);
    }
    if r.ip == ip && (ip !in l.buck || r.now > l.buck[ip].reset) {
      GrantedNone(log, ip, r.now);
    }
  }

  /** Drawing on a bucket that still runs. */
  lemma DrawKeeps(l: Limiter, log: seq<Entry>, r: Request, ip: string)
    requires l.window > 0 && Coherent(l, log, ip, r.now) && r.now < l.nextCleanup
    ensures var (after, e) := Serve(l, r); Coherent(after, log + [e], ip, r.now)
  {
    DrawKeepsTimes(l, log, r, ip);
    DrawKeepsCounts(l, log, r, ip);
    hide Timed, Counted, Spaced, Limited, Drawn;
  }

  /** Sweeping before the request is served changes nothing. */
  lemma SweptFirst(l: Limiter, r: Request)
    requires l.window > 0
    ensures Serve(Sweep(l, r.now), r) == Serve(l, r) && r.now < Sweep(l, r.now).nextCleanup
    ensures var (after, e) := Serve(l, r);
      after.window == l.window && after.maxEvents == l.maxEvents && e.ip == r.ip && e.now == r.now
  {
  }

  lemma FreshIsCoherent(l: Limiter, ip: string, start: int)
    requires l == Fresh(l.maxEvents, l.window, start)
    ensures Coherent(l, [], ip, start)
  {
  }

  lemma {:induction false} ServingKeeps(l: Limiter, requests: seq<Request>, ip: string, start: int)
    requires l.window > 0 && l == Fresh(l.maxEvents, l.window, start) && Ordered(requests, start)
    ensures var (after, log) := Serving(l, requests);
      && after.window == l.window && after.maxEvents == l.maxEvents
      && Coherent(after, log, ip, Last(requests, start))
      && |log| == |requests| && forall i | 0 <= i < |log| :: log[i].ip == requests[i].ip && log[i].now == requests[i].now
    decreases |requests|
  {
    if requests != [] {
      var before, r := requests[..|requests| - 1], requests[|requests| - 1];
      ServingKeeps(l, before, ip, start);
      var (mid, log) := Serving(l, before);
      var (after, e) := Serve(mid, r);
      assert Serving(l, requests) == (after, log + [e]);
      SweptFirst(mid, r);
      hide Coherent, Drawn, Sweep, Serving;
      SweepKeeps(mid, log, ip, Last(before, start), r.now);
      DrawKeeps(Sweep(mid, r.now), log, r, ip);
    } else {
      FreshIsCoherent(l, ip, start);
    }
  }

  /** No bucket ever lets more than the limit through, whatever happens to other addresses and at sweeps. */
  lemma BucketBound(l: Limiter, requests: seq<Request>, ip: string, begun: int, start: int)
    requires l.window > 0 && l == Fresh(l.maxEvents, l.window, start) && Ordered(requests, start)
    ensures Granted(Serving(l, requests).1, ip, begun) <= Limit(l)
  {
    ServingKeeps(l, requests, ip, start);
  }

  lemma {:induction false} TwoBuckets(log: seq<Entry>, ip: string, from: int, till: int, a: int, b: int)
    requires a != b
    requires forall i | 0 <= i < |log| && log[i].ip == ip && from <= log[i].now < till :: log[i].begun == a || log[i].begun == b
    ensures var early := exists j :: 0 <= j < |log| && log[j].ip == ip && log[j].begun == a && log[j].admitted && log[j].now < from;
      GrantedBetween(log, ip, from, till) + (if early then 1 else 0) <= Granted(log, ip, a) + Granted(log, ip, b)
    decreases |log|
  {
    if log != [] {
      var before := log[..|log| - 1];
      TwoBuckets(before, ip, from, till, a, b);
      if j :| 0 <= j < |before| && log[j].ip == ip && log[j].begun == a && log[j].admitted && log[j].now < from {
        assert before[j] == log[j];
      }
    }
  }

  lemma {:induction false} EmptyInterval(log: seq<Entry>, ip: string, from: int, till: int)
    requires till <= from
    ensures GrantedBetween(log, ip, from, till) == 0
    decreases |log|
  {
    if log != [] {
      EmptyInterval(log[..|log| - 1], ip, from, till);
    }
  }

  /**
   In any interval one window long, its start in and its end out, at most twice the limit less one gets through per
   address: a bucket from before the interval spent its first grant before it.
   */
  lemma WindowBound(l: Limiter, requests: seq<Request>, ip: string, from: int, start: int)
    requires l == Fresh(l.maxEvents, l.window, start) && Ordered(requests, start)
    ensures GrantedBetween(Serving(l, requests).1, ip, from, from + l.window)
            <= if l.maxEvents >= 1 then 2 * l.maxEvents - 1 else 0
  {
    var log := Serving(l, requests).1;
    if l.window <= 0 {
      EmptyInterval(log, ip, from, from + l.window);
    } else {
      ServingKeeps(l, requests, ip, start);
      var after := Serving(l, requests).0;
      if l.maxEvents >= 1 { ServingOpens(l, requests, ip, start); }
      hide Serving, Granted, GrantedBetween;
      BoundFromLog(after, log, ip, from, Last(requests, start));
    }
  }

  lemma BoundFromLog(l: Limiter, log: seq<Entry>, ip: string, from: int, last: int)
    requires l.window > 0 && Coherent(l, log, ip, last) && (l.maxEvents >= 1 ==> Opened(l, log, ip))
    ensures GrantedBetween(log, ip, from, from + l.window) <= if l.maxEvents >= 1 then 2 * l.maxEvents - 1 else 0
  {
    hide Granted, GrantedBetween;
    var a, b := BucketsInside(log, ip, from, l.window);
    TwoBuckets(log, ip, from, from + l.window, a, b);
    assert Granted(log, ip, a) <= Limit(l) && Granted(log, ip, b) <= Limit(l);
    if i :| 0 <= i < |log| && log[i].ip == ip && log[i].begun == a {
      if l.maxEvents >= 1 {
        assert HasOpening(log, ip, a);
        var j :| 0 <= j < |log| && log[j] == Entry(ip, a, a, true);
      }
    } else {
      GrantedNone(log, ip, a);
    }
  }

  /** At most one bucket that began before an interval reaches into it, and at most one begins inside it. */
  lemma BucketsInside(log: seq<Entry>, ip: string, from: int, window: int) returns (a: int, b: int)
    requires window > 0
    requires forall i | 0 <= i < |log| && log[i].ip == ip :: log[i].begun <= log[i].now <= log[i].begun + window
    requires forall i, j | 0 <= i < |log| && 0 <= j < |log| && log[i].ip == ip && log[j].ip == ip && log[i].begun < log[j].begun ::
      log[i].begun + window <= log[j].begun
    ensures a < from <= b
    ensures forall i | 0 <= i < |log| && log[i].ip == ip && from <= log[i].now < from + window :: log[i].begun == a || log[i].begun == b
  {
    a, b := from - 1, from;
    if i :| 0 <= i < |log| && log[i].ip == ip && from <= log[i].now < from + window && log[i].begun < from {
      a := log[i].begun;
    }
    if i :| 0 <= i < |log| && log[i].ip == ip && from <= log[i].now < from + window && log[i].begun >= from {
      b := log[i].begun;
    }
  }

  // ----- sweeping -----

  ghost predicate Swept(l: Limiter) {
    forall key | key in l.buck :: l.buck[key].reset > l.nextCleanup - l.window
  }

  lemma {:induction false} ServingIsSwept(l: Limiter, requests: seq<Request>, start: int)
    requires l.window > 0 && l == Fresh(l.maxEvents, l.window, start) && Ordered(requests, start)
    ensures var after := Serving(l, requests).0;
      after.window == l.window && Swept(after) && after.nextCleanup - l.window <= Last(requests, start)
      && (requests != [] ==> Last(requests, start) < after.nextCleanup)
    decreases |requests|
  {
    if requests != [] {
      ServingIsSwept(l, requests[..|requests| - 1], start);
    }
  }

  /** Whenever a request triggers the sweep, no bucket whose time is up is left; and none ever outlives it by a window. */
  lemma NoStaleBuckets(l: Limiter, requests: seq<Request>, r: Request, start: int)
    requires l.window > 0 && l == Fresh(l.maxEvents, l.window, start) && Ordered(requests + [r], start)
    ensures var before := Serving(l, requests).0;
      var after := Serving(l, requests + [r]).0;
      && (forall key | key in after.buck :: after.buck[key].reset > r.now - l.window)
      && (r.now >= before.nextCleanup ==> forall key | key in after.buck :: after.buck[key].reset > r.now)
  {
    var all := requests + [r];
    assert all[..|all| - 1] == requests;
    ServingIsSwept(l, all, start);
    ServingIsSwept(l, requests, start);
  }

  // ----- the bound is reached -----

  /** So many requests of one address at one time. */
  function Burst(ip: string, now: int, n: nat): (r: seq<Request>)
    ensures |r| == n
  {
    seq(n, i requires 0 <= i < n => Request(ip, now))
  }

  lemma ServingOne(l: Limiter, requests: seq<Request>, r: Request, ip: string, from: int, till: int)
    ensures var (mid, log) := Serving(l, requests);
      var (after, e) := Serve(mid, r);
      && Serving(l, requests + [r]) == (after, log + [e])
      && GrantedBetween(log + [e], ip, from, till)
         == GrantedBetween(log, ip, from, till) + if e.ip == ip && from <= e.now < till && e.admitted then 1 else 0
  {
    assert (requests + [r])[..|requests|] == requests;
    var (mid, log) := Serving(l, requests);
    assert (log + [Serve(mid, r).1])[..|log|] == log;
  }

  lemma OrderedOne(requests: seq<Request>, r: Request, start: int)
    requires Ordered(requests, start) && Last(requests, start) <= r.now
    ensures Ordered(requests + [r], start) && Last(requests + [r], start) == r.now
  {
    assert (requests + [r])[..|requests|] == requests;
  }

  /** The limiter once `n` more requests of an address have drawn on its bucket. */
  function Spent(l: Limiter, ip: string, n: nat): Limiter
    requires ip in l.buck
  {
    l.(buck := l.buck[ip := Bucket(l.buck[ip].count + n, l.buck[ip].reset)])
  }

  ghost predicate HasRoom(l: Limiter, ip: string, now: int, n: nat) {
    now < l.nextCleanup && ip in l.buck && now <= l.buck[ip].reset && l.buck[ip].count + n <= l.maxEvents
  }

  lemma RoomServes(l: Limiter, ip: string, now: int, n: nat)
    requires HasRoom(l, ip, now, n + 1)
    ensures var (after, e) := Serve(Spent(l, ip, n), Request(ip, now));
      after == Spent(l, ip, n + 1) && e.ip == ip && e.now == now && e.admitted
  {
    var mid := Spent(l, ip, n);
    var b := Bucket(l.buck[ip].count + n + 1, l.buck[ip].reset);
    assert mid.buck[ip := b] == l.buck[ip := b];
  }

  lemma NothingSpent(l: Limiter, ip: string)
    requires ip in l.buck
    ensures Spent(l, ip, 0) == l
  {
    assert l.buck[ip := l.buck[ip]] == l.buck;
  }

  /** As long as the bucket has room, a burst gets through whole. */
  lemma {:induction false} BurstIsGranted(l: Limiter, requests: seq<Request>, ip: string, now: int, n: nat, from: int, till: int, start: int)
    requires Ordered(requests, start) && Last(requests, start) <= now && HasRoom(Serving(l, requests).0, ip, now, n)
    ensures var all := requests + Burst(ip, now, n);
      && Ordered(all, start) && Last(all, start) <= now && Serving(l, all).0 == Spent(Serving(l, requests).0, ip, n)
      && GrantedBetween(Serving(l, all).1, ip, from, till)
         == GrantedBetween(Serving(l, requests).1, ip, from, till) + if from <= now < till then n else 0
    decreases n
  {
    hide Serving, Serve, Ordered, GrantedBetween, Spent;
    if n == 0 {
      assert requests + Burst(ip, now, 0) == requests;
      NothingSpent(Serving(l, requests).0, ip);
    } else {
      BurstIsGranted(l, requests, ip, now, n - 1, from, till, start);
      var most, r := requests + Burst(ip, now, n - 1), Request(ip, now);
      assert requests + Burst(ip, now, n) == most + [r];
      RoomServes(Serving(l, requests).0, ip, now, n - 1);
      ServingOne(l, most, r, ip, from, till);
      OrderedOne(most, r, start);
    }
  }

  /** A bucket that is due is renewed at once, whether the sweep or the request finds it out. */
  lemma NewAddressIsServed(l: Limiter, r: Request)
    requires l.maxEvents >= 1 && l.window > 0 && (r.ip !in l.buck || r.now > l.buck[r.ip].reset || (r.now >= l.nextCleanup && r.now >= l.buck[r.ip].reset))
    ensures var (after, e) := Serve(l, r);
      && e.admitted && e.begun == r.now && r.now < after.nextCleanup
      && r.ip in after.buck && after.buck[r.ip] == Bucket(1, r.now + l.window)
      && (r.now < l.nextCleanup ==> after.nextCleanup == l.nextCleanup)
  {
  }

  /** The history that does it: a bucket is begun, spent in its last instant, and renewed by the sweep in the next. */
  function Flood(ip: string, limit: nat, window: nat, start: int): seq<Request>
    requires limit >= 1
  {
    [Request(ip, start)] + Burst(ip, start + window - 1, limit - 1) + [Request(ip, start + window)]
    + Burst(ip, start + window, limit - 1)
  }

  /** How many requests of an address get through in the interval one window long that starts at `from`. */
  function Peak(l: Limiter, requests: seq<Request>, ip: string, from: int): nat {
    GrantedBetween(Serving(l, requests).1, ip, from, from + l.window)
  }

  lemma FirstIsServed(l: Limiter, ip: string, start: int)
    requires l == Fresh(l.maxEvents, l.window, start) && l.maxEvents >= 2 && l.window >= 2
    ensures var one := [Request(ip, start)];
      && Ordered(one, start) && Last(one, start) == start && HasRoom(Serving(l, one).0, ip, start + l.window - 1, l.maxEvents - 1)
      && Serving(l, one).0.buck[ip] == Bucket(1, start + l.window) && Serving(l, one).0.nextCleanup == start + l.window
      && Serving(l, one).0.window == l.window && Serving(l, one).0.maxEvents == l.maxEvents
      && GrantedBetween(Serving(l, one).1, ip, start + l.window - 1, start + 2 * l.window - 1) == 0
  {
    var first := Request(ip, start);
    assert [] + [first] == [first];
    NewAddressIsServed(l, first);
    ServingOne(l, [], first, ip, start + l.window - 1, start + 2 * l.window - 1);
    hide Serve;
  }

  lemma RenewedIsServed(l: Limiter, requests: seq<Request>, ip: string, now: int, from: int, till: int, start: int)
    requires Ordered(requests, start) && Last(requests, start) <= now && from <= now < till
    requires var mid := Serving(l, requests).0;
      ip in mid.buck && mid.nextCleanup <= now && mid.buck[ip].reset <= now && mid.maxEvents >= 2 && mid.window >= 2
    ensures var all := requests + [Request(ip, now)];
      var mid, after := Serving(l, requests).0, Serving(l, all).0;
      && Ordered(all, start) && Last(all, start) == now && HasRoom(after, ip, now, mid.maxEvents - 1)
      && GrantedBetween(Serving(l, all).1, ip, from, till) == GrantedBetween(Serving(l, requests).1, ip, from, till) + 1
  {
    var r := Request(ip, now);
    NewAddressIsServed(Serving(l, requests).0, r);
    SweptFirst(Serving(l, requests).0, r);
    ServingOne(l, requests, r, ip, from, till);
    OrderedOne(requests, r, start);
    hide Serving, Serve, GrantedBetween, Ordered;
  }

  /** The first bucket, with all but its first grant in the last instant before it is due. */
  function Early(l: Limiter, ip: string, start: int): seq<Request>
    requires l.maxEvents >= 2
  {
    [Request(ip, start)] + Burst(ip, start + l.window - 1, l.maxEvents - 1)
  }

  lemma EarlyIsGranted(l: Limiter, ip: string, start: int)
    requires l == Fresh(l.maxEvents, l.window, start) && l.maxEvents >= 2 && l.window >= 2
    ensures var requests := Early(l, ip, start);
      var mid := Serving(l, requests).0;
      && Ordered(requests, start) && Last(requests, start) <= start + l.window
      && ip in mid.buck && mid.buck[ip].reset == start + l.window && mid.nextCleanup == start + l.window
      && mid.window == l.window && mid.maxEvents == l.maxEvents
      && GrantedBetween(Serving(l, requests).1, ip, start + l.window - 1, start + 2 * l.window - 1) == l.maxEvents - 1
  {
    hide Serving, Serve, GrantedBetween, Burst, Ordered, Spent, Fresh;
    FirstIsServed(l, ip, start);
    var one := [Request(ip, start)];
    BurstIsGranted(l, one, ip, start + l.window - 1, l.maxEvents - 1, start + l.window - 1, start + 2 * l.window - 1, start);
    SpentFields(Serving(l, one).0, ip, l.maxEvents - 1);
  }

  /** For every limit and window of two or more, the bound is reached. */
  lemma BoundIsReached(l: Limiter, ip: string, start: int)
    requires l == Fresh(l.maxEvents, l.window, start) && l.maxEvents >= 2 && l.window >= 2
    ensures var requests := Flood(ip, l.maxEvents, l.window, start);
      Ordered(requests, start) && Peak(l, requests, ip, start + l.window - 1) == 2 * l.maxEvents - 1
  {
    var from, till, again := start + l.window - 1, start + 2 * l.window - 1, start + l.window;
    EarlyIsGranted(l, ip, start);
    hide *;
    var early := Early(l, ip, start);
    RenewedIsServed(l, early, ip, again, from, till, start);
    var renewed := early + [Request(ip, again)];
    BurstIsGranted(l, renewed, ip, again, l.maxEvents - 1, from, till, start);
    FloodIs(l, ip, start);
    PeakIs(l, renewed + Burst(ip, again, l.maxEvents - 1), ip, start);
  }

  lemma FloodIs(l: Limiter, ip: string, start: int)
    requires l.maxEvents >= 2 && l.window >= 2
    ensures Flood(ip, l.maxEvents, l.window, start)
            == Early(l, ip, start) + [Request(ip, start + l.window)] + Burst(ip, start + l.window, l.maxEvents - 1)
  {
    hide Burst;
  }

  lemma PeakIs(l: Limiter, requests: seq<Request>, ip: string, start: int)
    ensures Peak(l, requests, ip, start + l.window - 1)
            == GrantedBetween(Serving(l, requests).1, ip, start + l.window - 1, start + 2 * l.window - 1)
  {
    hide Serving, GrantedBetween;
  }

  lemma SpentFields(l: Limiter, ip: string, n: nat)
    requires ip in l.buck
    ensures var after := Spent(l, ip, n);
      && (after.maxEvents, after.window, after.nextCleanup) == (l.maxEvents, l.window, l.nextCleanup)
      && ip in after.buck && after.buck[ip].reset == l.buck[ip].reset
  {
  }

  /** In a window of a single instant every sweep is due, and every request draws on a bucket begun then. */
  lemma {:induction false} OneInstant(l: Limiter, requests: seq<Request>, ip: string, start: int)
    requires l.window == 1 && l == Fresh(l.maxEvents, l.window, start) && Ordered(requests, start)
    ensures var log := Serving(l, requests).1;
      forall i | 0 <= i < |log| && log[i].ip == ip :: log[i].begun == log[i].now
    decreases |requests|
  {
    if requests != [] {
      var before, r := requests[..|requests| - 1], requests[|requests| - 1];
      OneInstant(l, before, ip, start);
      ServingKeeps(l, before, ip, start);
      ServingIsSwept(l, before, start);
      var (mid, log) := Serving(l, before);
      assert Serving(l, requests).1 == log + [Serve(mid, r).1];
      hide Serving, Granted, GrantedBetween;
      assert r.ip == ip ==> Serve(mid, r).1.begun == r.now;
    }
  }

  lemma {:induction false} GrantedInstant(log: seq<Entry>, ip: string, from: int)
    requires forall i | 0 <= i < |log| && log[i].ip == ip :: log[i].begun == log[i].now
    ensures GrantedBetween(log, ip, from, from + 1) == Granted(log, ip, from)
    decreases |log|
  {
    if log != [] {
      GrantedInstant(log[..|log| - 1], ip, from);
    }
  }

  /** In every history, no address gets more than the limit through in any interval one window long. */
  ghost predicate WithinLimit(l: Limiter, start: int) {
    forall requests, ip, from | Ordered(requests, start) :: Peak(l, requests, ip, from) <= Limit(l)
  }

  lemma PeakWithin(l: Limiter, requests: seq<Request>, ip: string, from: int, start: int)
    requires l == Fresh(l.maxEvents, l.window, start) && Ordered(requests, start) && (l.maxEvents <= 1 || l.window <= 1)
    ensures Peak(l, requests, ip, from) <= Limit(l)
  {
    if l.maxEvents > 1 && l.window == 1 {
      OneInstant(l, requests, ip, start);
      hide Serving, GrantedBetween, Granted, Ordered;
      GrantedInstant(Serving(l, requests).1, ip, from);
      BucketBound(l, requests, ip, from, start);
    } else if l.maxEvents > 1 {
      EmptyInterval(Serving(l, requests).1, ip, from, from + l.window);
    } else {
      WindowBound(l, requests, ip, from, start);
    }
  }

  /** The limit holds per interval exactly when it is at most one, or the window at most one instant. */
  lemma WithinLimitIff(l: Limiter, start: int)
    requires l == Fresh(l.maxEvents, l.window, start)
    ensures WithinLimit(l, start) <==> l.maxEvents <= 1 || l.window <= 1
  {
    hide Ordered, Flood, Peak;
    if l.maxEvents <= 1 || l.window <= 1 {
      forall requests, ip, from | Ordered(requests, start) ensures Peak(l, requests, ip, from) <= Limit(l) {
        PeakWithin(l, requests, ip, from, start);
      }
    } else {
      BoundIsReached(l, "", start);
      assert Ordered(Flood("", l.maxEvents, l.window, start), start);
    }
  }

  /** Until a window has passed nothing is swept: every address has its bucket. */
  lemma {:induction false} NothingSweptEarly(l: Limiter, requests: seq<Request>, start: int)
    requires l == Fresh(l.maxEvents, l.window, start) && Ordered(requests, start) && Last(requests, start) < start + l.window
    ensures var after := Serving(l, requests).0;
      after.nextCleanup == start + l.window && forall i | 0 <= i < |requests| :: requests[i].ip in after.buck
    decreases |requests|
  {
    if requests != [] {
      NothingSweptEarly(l, requests[..|requests| - 1], start);
    }
  }
}
