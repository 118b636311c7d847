/**
 Port prediction: the two-sided window around a base port, its size, the puncher's own shorter form of it, and what it
 covers of the simulator's port allocator.
 */
module Prediction {
  import opened Arithmetic
  import opened PortRing

  const PORT_SPACE := 0x1_0000

  /** `p & 0xFFFF`, with the step standing in for port 0. */
  function Wrapped(p: int, step: int): int {
    if p % PORT_SPACE == 0 then step else p % PORT_SPACE
  }

  /** The point `d` steps away from the base. */
  function Point(base: int, step: int, d: int): int {
    Wrapped(base + d * step, step)
  }

  function PerSide(n: int, w: int): (k: int)
    ensures k >= 1
  {
    Max(1, n * Max(0, w))
  }

  /** The points from `low` to below `high` steps away, the base itself left out. */
  function Points(base: int, step: int, low: int, high: int): set<int> {
    set d | low <= d < high && d != 0 :: Point(base, step, d)
  }

  function Window(base: int, step: int, k: int): set<int> {
    Points(base, step, -k, k + 1)
  }

  predicate Descending(s: seq<int>) {
    forall i, j | 0 <= i < j < |s| :: s[i] > s[j]
  }

  function Masked(exclude: seq<int>): set<int> {
    set p | p in exclude :: p % PORT_SPACE
  }

  /** `sorted(points, reverse=True)`. */
  method SortedDescending(points: set<int>) returns (r: seq<int>)
    ensures Descending(r) && Elements(r) == points
  {
    r := [];
    var left := points;
    while exists e :: e in left
      invariant left <= points
      invariant Descending(r) && Elements(r) == points - left
      invariant forall p, i | p in left && 0 <= i < |r| :: p < r[i]
      decreases left
    {
      var e :| e in left;
      ghost var m := SomeIsGreatest(left, e);
      var top :| top in left && forall x | x in left :: x <= top;
      assert Elements(r + [top]) == Elements(r) + {top};
      r := r + [top];
      left := left - {top};
    }
  }

  /** The two-sided prediction of the prediction engine. */
  method PredictPorts(base: int, step: int, n: int, w: int, exclude: seq<int>) returns (r: seq<int>)
    ensures step <= 0 || w <= 0 ==> r == []
    ensures step > 0 && w > 0 ==>
      Descending(r) && Elements(r) == Window(base, step, PerSide(n, w)) - Masked(exclude)
  {
    if step <= 0 || w <= 0 { return []; }
    var banned := Masked(exclude);
    var perSide := PerSide(n, w);
    var points: set<int> := {};
    var i := 1;
    assert Window(base, step, 0) == {};
    while i <= perSide
      invariant 1 <= i <= perSide + 1
      invariant points == Window(base, step, i - 1) - banned
    {
      WindowGrows(base, step, i);
      hide Window, Point;
      for k := 0 to 2
        invariant points == Window(base, step, i - 1) + Tried(base, step, i, k) - banned
      {
        var sign := if k == 0 then 1 else -1;
        var p := WrapPort(base, step, sign, i);
        if p !in banned { points := points + {p}; }
      }
      i := i + 1;
    }
    r := SortedDescending(points);
  }

  /** The points tried so far at distance `i`. */
  function Tried(base: int, step: int, i: int, k: int): set<int> {
    if k <= 0 then {} else if k == 1 then {Point(base, step, i)} else {Point(base, step, i), Point(base, step, -i)}
  }

  method WrapPort(base: int, step: int, sign: int, i: int) returns (p: int)
    requires sign == 1 || sign == -1
    ensures p == Point(base, step, if sign == 1 then i else -i)
  {
    p := (base + sign * i * step) % PORT_SPACE;
    assert sign * i == if sign == 1 then i else -i;
    if p == 0 { p := step; }
  }

  lemma WindowGrows(base: int, step: int, i: int)
    requires i >= 1
    ensures Window(base, step, i) == Window(base, step, i - 1) + {Point(base, step, i), Point(base, step, -i)}
  {
    hide Point;
    var w := Window(base, step, i);
    forall p | p in w
      ensures p in Window(base, step, i - 1) + {Point(base, step, i), Point(base, step, -i)}
    {
      var d :| -i <= d <= i && d != 0 && p == Point(base, step, d);
    }
  }

  /** The puncher's own prediction: both directions without repetition, or forward only, farthest first. */
  method PredictNearby(base: int, step: int, count: int, bidirectional: bool) returns (out: seq<int>)
    ensures bidirectional ==>
      (forall i, j | 0 <= i < j < |out| :: out[i] != out[j]) && forall p :: p in out <==> p in Window(base, step, count)
    ensures !bidirectional ==>
      |out| == Max(0, count) && forall i | 0 <= i < |out| :: out[i] == Point(base, step, count - i)
  {
    out := [];
    if bidirectional {
      var i := -count;
      while i < 0
        invariant -count <= i <= Max(0, -count)
        invariant forall j, k | 0 <= j < k < |out| :: out[j] != out[k]
        invariant forall p :: p in out <==> p in Points(base, step, -count, i)
      {
        ForwardGrows(base, step, -count, i);
        var p := Wrapped(base + step * i, step);
        assert p == Point(base, step, i);
        if p !in out { out := out + [p]; }
        i := i + 1;
      }
      i := 1;
      assert Points(base, step, -count, Max(0, -count)) == Points(base, step, -count, 1);
      while i < count + 1
        invariant 1 <= i <= Max(1, count + 1)
        invariant forall j, k | 0 <= j < k < |out| :: out[j] != out[k]
        invariant forall p :: p in out <==> p in Points(base, step, -count, i)
      {
        ForwardGrows(base, step, -count, i);
        var p := Wrapped(base + step * i, step);
        assert p == Point(base, step, i);
        if p !in out { out := out + [p]; }
        i := i + 1;
      }
    } else {
      var i := count;
      while i > 0
        invariant Min(0, count) <= i <= count
        invariant |out| == count - i
        invariant forall j | 0 <= j < |out| :: out[j] == Point(base, step, count - j)
      {
        assert step * i == i * step;
        out := out + [Wrapped(base + step * i, step)];
        i := i - 1;
      }
    }
  }

  lemma ForwardGrows(base: int, step: int, low: int, i: int)
    requires i != 0 && low <= i
    ensures Points(base, step, low, i + 1) == Points(base, step, low, i) + {Point(base, step, i)}
  {
    hide Point;
    assert Point(base, step, i) in Points(base, step, low, i + 1);
  }

  /** With one window per side the two predictions are the same set exactly when at least one port is asked for. */
  lemma SamePrediction(base: int, step: int, n: int)
    requires step > 0
    ensures Window(base, step, PerSide(n, 1)) == Window(base, step, n) <==> n >= 1
  {
    if n < 1 {
      assert Point(base, step, 1) in Window(base, step, PerSide(n, 1));
      assert Window(base, step, n) == {};
    }
  }

  // ----- how many points there are -----

  /** The interval of the prediction and the number of points it is said to hold. */
  function PredictInterval(base: int, step: int, n: int, w: int): (int, int, int) {
    if step <= 0 || w <= 0 then (base, base, 0)
    else
      var k := PerSide(n, w);
      ((base - k * step) % PORT_SPACE, (base + k * step) % PORT_SPACE, 2 * k)
  }

  predicate Zero(base: int, step: int, d: int) {
    (base + d * step) % PORT_SPACE == 0
  }

  lemma ResiduesDiffer(base: int, step: int, i: int, j: int)
    requires i < j && 0 < (j - i) * step < PORT_SPACE
    ensures (base + i * step) % PORT_SPACE != (base + j * step) % PORT_SPACE
  {
    assert base + j * step == (base + i * step) + (j - i) * step;
  }

  lemma ProductGrows(m: int, s: int)
    requires m > 0 && s >= 1
    ensures m * s >= m
  {
    assert m * s == m * (s - 1) + m;
  }

  /** An odd number above one does not divide the port space. */
  lemma {:induction false} OddNeverDivides(m: int, s: int, space: int, p: nat)
    requires m > 1 && m % 2 == 1 && space == Power(p)
    ensures m * s != space
    decreases p
  {
    if m * s == space {
      if p == 0 {
        if s >= 1 { ProductGrows(m, s); }
        assert false;
      } else {
        var h := s / 2;
        assert m * s == m * (2 * h) + m * (s % 2);
        assert m * (2 * h) == 2 * (m * h);
        assert s % 2 == 0;
        OddNeverDivides(m, h, Power(p - 1), p - 1);
      }
    }
  }

  function Power(p: nat): int {
    if p == 0 then 1 else 2 * Power(p - 1)
  }

  lemma {:induction false} PowerAdds(p: nat, q: nat)
    ensures Power(p + q) == Power(p) * Power(q)
    decreases q
  {
    if q > 0 {
      PowerAdds(p, q - 1);
      assert Power(p) * Power(q) == Power(p) * (2 * Power(q - 1)) == 2 * (Power(p) * Power(q - 1));
    }
  }

  lemma GapIsStep(m: int, step: int)
    requires step > 0 && m >= 1
    ensures m * step >= step && (m * step == step <==> m == 1) && (m + 1) * step == m * step + step
  {
    assert m * step == (m - 1) * step + step;
    if m > 1 { ProductGrows(step, m - 1); }
  }

  /** Two points coincide only when one falls on port 0 and the other is the step that stands in for it. */
  lemma Collision(base: int, step: int, i: int, j: int)
    requires step > 0 && i < j && (j - i) * step < PORT_SPACE && (j + 1 - i) * step != PORT_SPACE
    ensures Point(base, step, i) == Point(base, step, j) <==> j == i + 1 && Zero(base, step, i)
  {
    hide Wrapped;
    GapIsStep(j - i, step);
    assert base + j * step == (base + i * step) + (j - i) * step;
    CollisionResidues(base + i * step, base + j * step, (j - i) * step, step);
  }

  lemma CollisionResidues(x: int, y: int, gap: int, step: int)
    requires 0 < step <= gap < PORT_SPACE && y == x + gap && gap + step != PORT_SPACE
    ensures Wrapped(x, step) == Wrapped(y, step) <==> gap == step && x % PORT_SPACE == 0
  {
  }

  /** The multiples of the step from `low` to below `high` that may be a point. */
  function Steps(low: int, high: int): int {
    high - low - if low <= 0 < high then 1 else 0
  }

  /** A point on port 0 gives way to a step that is a point already. */
  predicate Swallowed(base: int, step: int, low: int, high: int) {
    exists d | low <= d < high - 1 :: d != 0 && d != -1 && Zero(base, step, d)
  }

  predicate Roomy(step: int, length: int) {
    step > 0 && (length - 1) * step < PORT_SPACE && length * step != PORT_SPACE
  }

  lemma RoomyInside(step: int, length: int, m: int)
    requires Roomy(step, length) && 1 <= m < length
    ensures m * step < PORT_SPACE && (m + 1) * step != PORT_SPACE && Roomy(step, m)
  {
    MultiplesOrdered(step, m, length - 1);
    MultiplesOrdered(step, m - 1, m);
    if m + 1 < length { MultiplesOrdered(step, m + 1, length - 1); }
  }

  lemma MultiplesOrdered(step: int, a: int, b: int)
    requires step > 0 && a <= b
    ensures a * step <= b * step
  {
    assert b * step == a * step + (b - a) * step;
  }

  lemma NewestCollides(base: int, step: int, low: int, high: int)
    requires low < high && high - 1 != 0 && Roomy(step, high - low)
    ensures var i := high - 1;
      Point(base, step, i) in Points(base, step, low, i) <==> low < i && i - 1 != 0 && Zero(base, step, i - 1)
  {
    hide Point, Zero, Roomy;
    var i := high - 1;
    forall j | low <= j < i
      ensures Point(base, step, j) == Point(base, step, i) <==> i == j + 1 && Zero(base, step, j)
    {
      RoomyInside(step, high - low, i - j);
      assert step > 0 by { RoomyPositive(step, high - low); }
      Collision(base, step, j, i);
    }
  }

  lemma RoomyPositive(step: int, length: int)
    requires Roomy(step, length)
    ensures step > 0
  {
  }

  lemma OneZero(base: int, step: int, length: int, i: int, j: int)
    requires Roomy(step, length) && i < j < i + length && Zero(base, step, i)
    ensures !Zero(base, step, j)
  {
    RoomyInside(step, length, j - i);
    GapIsStep(j - i, step);
    ResiduesDiffer(base, step, i, j);
  }

  lemma {:induction false} PointsCount(base: int, step: int, low: int, high: int)
    requires low <= high && (low == high || Roomy(step, high - low))
    ensures |Points(base, step, low, high)| == Steps(low, high) - if Swallowed(base, step, low, high) then 1 else 0
    decreases high - low
  {
    if low < high {
      var i := high - 1;
      if low < i { RoomyInside(step, high - low, i - low); }
      PointsCount(base, step, low, i);
      if i == 0 {
        assert Points(base, step, low, high) == Points(base, step, low, i);
        assert Swallowed(base, step, low, high) <==> Swallowed(base, step, low, i);
      } else {
        NewestCollides(base, step, low, high);
        ForwardGrows(base, step, low, i);
        SwallowedGrows(base, step, low, high);
        hide Point, Zero, Roomy, Swallowed;
        assert Points(base, step, low, high) == Points(base, step, low, i) + {Point(base, step, i)};
      }
    }
  }

  lemma SwallowedGrows(base: int, step: int, low: int, high: int)
    requires low < high && high - 1 != 0 && Roomy(step, high - low)
    ensures var i := high - 1;
      var now := low < i && i - 1 != 0 && Zero(base, step, i - 1);
      && (Swallowed(base, step, low, high) <==> Swallowed(base, step, low, i) || now)
      && !(Swallowed(base, step, low, i) && now)
  {
    hide Zero, Roomy;
    var i := high - 1;
    forall d | low <= d < i - 1 && Zero(base, step, d)
      ensures !Zero(base, step, i - 1)
    {
      OneZero(base, step, high - low, d, i - 1);
    }
  }

  /**
   As long as the window does not overlap itself, it holds as many points as the interval says, unless a point other
   than the nearest below or the farthest above falls on port 0: then it holds one less.
   */
  lemma WindowSize(base: int, step: int, n: int, w: int)
    requires step > 0 && w > 0 && 2 * PerSide(n, w) * step < PORT_SPACE
    ensures var k := PerSide(n, w);
      |Window(base, step, k)| == PredictInterval(base, step, n, w).2
        - if exists d | -k <= d < k :: d != 0 && d != -1 && Zero(base, step, d) then 1 else 0
  {
    var k := PerSide(n, w);
    assert Power(8) == 256;
    PowerAdds(8, 8);
    OddNeverDivides(2 * k + 1, step, PORT_SPACE, 16);
    assert Points(base, step, -k, k + 1) == Window(base, step, k);
    PointsCount(base, step, -k, k + 1);
  }

  /** A descending sequence has as many elements as the set it lists. */
  lemma {:induction false} DescendingLength(r: seq<int>)
    requires Descending(r)
    ensures |Elements(r)| == |r|
    decreases r
  {
    if r != [] {
      var rest := r[1..];
      assert r == [r[0]] + rest;
      assert forall p | p in rest :: p != r[0];
      DescendingLength(rest);
      assert Elements(r) == Elements(rest) + {r[0]};
    }
  }

  // ----- what the prediction covers of the allocator -----

  /** The ring does not wrap on the way to draw `k` after the mapping at `base`. */
  predicate Unwrapped(base: int, step: int, k: int) {
    OnRing(base + k * step)
  }

  lemma Between(base: int, step: int, i: int, k: int)
    requires OnRing(base) && Unwrapped(base, step, k) && 0 <= i <= k
    ensures OnRing(base + i * step)
  {
    assert k * step == i * step + (k - i) * step;
    if step >= 0 {
      assert i * step >= 0 && (k - i) * step >= 0;
    } else {
      assert i * step <= 0 && (k - i) * step <= 0;
    }
  }

  /** Without a wrap, draw `i` after the base is `i` steps away. */
  lemma DrawUnwrapped(a: Allocator, base: int, k: int, i: nat)
    requires a.mode.StepMode? && a.nextPort == base && OnRing(base) && Unwrapped(base, a.step, k) && i <= k
    ensures DrawAt(a, i) == base + i * a.step
  {
    StepDraw(a, i);
    Between(base, a.step, i, k);
  }

  /** Whether the step is positive or negative, a port on the ring that is `i` steps away is one of the points. */
  lemma StepsAwayIsPoint(base: int, step: int, i: int, k: int)
    requires step != 0 && 1 <= i <= k && OnRing(base + i * step)
    ensures base + i * step in Window(base, Abs(step), k)
  {
    var d := if step > 0 then i else -i;
    assert d * Abs(step) == i * step;
    assert Point(base, Abs(step), d) in Window(base, Abs(step), k);
  }

  /**
   If the ring does not wrap within the `n * w` draws after the one that gave `base`, every port drawn, whether it is
   then skipped, used for noise or for a mapping, is predicted.
   */
  lemma PredictionCoversDraws(a: Allocator, base: int, n: int, w: int, i: nat)
    requires a.mode.StepMode? && a.step != 0 && a.nextPort == base && OnRing(base)
    requires w > 0 && Unwrapped(base, a.step, PerSide(n, w)) && 1 <= i <= PerSide(n, w)
    ensures DrawAt(a, i) in Window(base, Abs(a.step), PerSide(n, w))
  {
    DrawUnwrapped(a, base, PerSide(n, w), i);
    Between(base, a.step, i, PerSide(n, w));
    StepsAwayIsPoint(base, a.step, i, PerSide(n, w));
  }

  lemma StepsBound(i: int, step: int, k: int)
    requires -k <= i <= k
    ensures -k * Abs(step) <= i * step <= k * Abs(step)
  {
    var s := if step >= 0 then i else -i;
    assert i * step == s * Abs(step);
    assert (k - s) * Abs(step) >= 0 && (k + s) * Abs(step) >= 0;
    assert (k - s) * Abs(step) == k * Abs(step) - s * Abs(step);
    assert (k + s) * Abs(step) == k * Abs(step) + s * Abs(step);
  }

  /** How often the ring wraps on the way to draw `i` after the mapping at `base`. */
  function Wraps(base: int, step: int, i: int): int {
    (base - FIRST_PORT + i * step) / RING_SIZE
  }

  lemma DrawWraps(a: Allocator, base: int, i: nat)
    requires a.mode.StepMode? && a.nextPort == base && OnRing(base)
    ensures DrawAt(a, i) == base + i * a.step - RING_SIZE * Wraps(base, a.step, i) && OnRing(DrawAt(a, i))
  {
    StepDraw(a, i);
    var offset := base - FIRST_PORT + i * a.step;
    assert offset == RING_SIZE * (offset / RING_SIZE) + offset % RING_SIZE;
  }

  /** The point `d` steps away meets draw `i`: each wrap of the ring puts the two 1024 apart, or the step stands in for port 0. */
  predicate Meets(base: int, step: int, i: int, d: int) {
    || (d * Abs(step) - i * step - (PORT_SPACE - RING_SIZE) * Wraps(base, step, i)) % PORT_SPACE == 0
    || (Zero(base, Abs(step), d) && base + i * step - RING_SIZE * Wraps(base, step, i) == Abs(step))
  }

  lemma WrappedIs(x: int, step: int, port: int)
    requires OnRing(port)
    ensures Wrapped(x, step) == port <==> (x - port) % PORT_SPACE == 0 || (x % PORT_SPACE == 0 && port == step)
  {
    var r := x % PORT_SPACE;
    assert x == PORT_SPACE * (x / PORT_SPACE) + r;
    if (x - port) % PORT_SPACE == 0 {
      var m := (x - port) / PORT_SPACE;
      assert x - port == PORT_SPACE * m;
      assert r - port == PORT_SPACE * (m - x / PORT_SPACE);
      assert r == port;
    }
  }

  lemma SameResidue(x: int, q: int)
    ensures (x + PORT_SPACE * q) % PORT_SPACE == x % PORT_SPACE
  {
    RemainderAbsorbs(x, 0, PORT_SPACE);
    assert x + PORT_SPACE * q == PORT_SPACE * (x / PORT_SPACE + q) + x % PORT_SPACE;
  }

  lemma MeetsIff(a: Allocator, base: int, i: nat, d: int)
    requires a.mode.StepMode? && a.nextPort == base && OnRing(base)
    ensures Point(base, Abs(a.step), d) == DrawAt(a, i) <==> Meets(base, a.step, i, d)
  {
    var port, x, q := DrawAt(a, i), base + d * Abs(a.step), Wraps(base, a.step, i);
    DrawWraps(a, base, i);
    WrappedIs(x, Abs(a.step), port);
    SameResidue(d * Abs(a.step) - i * a.step - (PORT_SPACE - RING_SIZE) * q, q);
    assert x - port == d * Abs(a.step) - i * a.step - (PORT_SPACE - RING_SIZE) * q + PORT_SPACE * q;
  }

  /** Whatever the window and the step, and however often the ring wraps, exactly these draws are predicted. */
  lemma DrawIsCoveredIff(a: Allocator, base: int, k: int, i: nat)
    requires a.mode.StepMode? && a.nextPort == base && OnRing(base)
    ensures DrawAt(a, i) in Window(base, Abs(a.step), k) <==> exists d | -k <= d <= k :: d != 0 && Meets(base, a.step, i, d)
  {
    hide Point, Meets;
    forall d ensures Point(base, Abs(a.step), d) == DrawAt(a, i) <==> Meets(base, a.step, i, d) {
      MeetsIff(a, base, i, d);
    }
    if d :| -k <= d <= k && d != 0 && Meets(base, a.step, i, d) {
      assert Point(base, Abs(a.step), d) in Points(base, Abs(a.step), -k, k + 1);
    }
  }

  /** The one wrapped draw that is predicted all the same: port 0 gives way to the step, which is where the ring begins. */
  predicate StandIn(base: int, step: int, k: int) {
    step == FIRST_PORT && base + k * step == PORT_SPACE
  }

  lemma LastDrawMeets(base: int, step: int, k: int, d: int)
    requires OnRing(base) && k >= 1 && step != 0 && 2 * (k * Abs(step)) < RING_SIZE && !Unwrapped(base, step, k)
    requires -k <= d <= k && Meets(base, step, k, d)
    ensures StandIn(base, step, k)
  {
    StepsBound(d, Abs(step), k);
    StepsBound(k, step, k);
    var away, off, q := d * Abs(step), k * step, Wraps(base, step, k);
    assert q == 1 || q == -1;
    assert step > 0 <==> q == 1 by { StepsBound(k, step, k); ProductGrows(k, Abs(step)); }
    assert off == if step > 0 then k * Abs(step) else -(k * Abs(step));
    FarMeets(base, Abs(step), away, k * Abs(step), step > 0);
    if step > 0 {
      GapIsStep(k, step);
      assert away == (d - k) * step + off;
      if d < k { StepsAreApart(d, k, step); }
    }
  }

  lemma StepsAreApart(d: int, k: int, step: int)
    requires d < k && step > 0
    ensures d * step <= k * step - step
  {
    MultiplesOrdered(step, d, k - 1);
    assert k * step == (k - 1) * step + step;
  }

  /** The same with the products named. */
  lemma FarMeets(base: int, s: int, away: int, off: int, up: bool)
    requires OnRing(base) && 0 < s <= off && -off <= away <= off && 2 * off < RING_SIZE
    requires up ==> base + off >= PORT_SPACE
    requires !up ==> base - off < FIRST_PORT
    requires var q := if up then 1 else -1;
      var total := if up then off else -off;
      || (away - total - (PORT_SPACE - RING_SIZE) * q) % PORT_SPACE == 0
      || ((base + away) % PORT_SPACE == 0 && base + total - RING_SIZE * q == s)
    ensures up && base + off - RING_SIZE == s && base + away == PORT_SPACE
  {
  }

  /**
   As long as the window takes less than half the ring, the prediction covers all of its draws exactly when the ring does
   not wrap within them; and for a step of 1024 also when only the last of them wraps, to the first port of the ring.
   */
  lemma CoversIffUnwrapped(a: Allocator, base: int, n: int, w: int)
    requires a.mode.StepMode? && a.step != 0 && a.nextPort == base && OnRing(base)
    requires w > 0 && 2 * (PerSide(n, w) * Abs(a.step)) < RING_SIZE
    ensures var k := PerSide(n, w);
      (forall i: nat | 1 <= i <= k :: DrawAt(a, i) in Window(base, Abs(a.step), k))
      <==> Unwrapped(base, a.step, k) || StandIn(base, a.step, k)
  {
    var k := PerSide(n, w);
    if Unwrapped(base, a.step, k) {
      forall i: nat | 1 <= i <= k ensures DrawAt(a, i) in Window(base, Abs(a.step), k) {
        PredictionCoversDraws(a, base, n, w, i);
      }
    } else if StandIn(base, a.step, k) {
      forall i: nat | 1 <= i <= k ensures DrawAt(a, i) in Window(base, Abs(a.step), k) {
        StandInCovers(a, base, k, i);
      }
    } else {
      DrawIsCoveredIff(a, base, k, k);
      if d :| -k <= d <= k && d != 0 && Meets(base, a.step, k, d) {
        LastDrawMeets(base, a.step, k, d);
      }
    }
  }

  lemma StandInCovers(a: Allocator, base: int, k: int, i: nat)
    requires a.mode.StepMode? && a.nextPort == base && OnRing(base) && StandIn(base, a.step, k) && 1 <= i <= k
    ensures DrawAt(a, i) in Window(base, Abs(a.step), k)
  {
    StepDraw(a, i);
    if i < k {
      assert base + i * a.step == PORT_SPACE - (k - i) * FIRST_PORT;
      StepsAwayIsPoint(base, a.step, i, k);
    } else {
      assert DrawAt(a, i) == FIRST_PORT && Point(base, a.step, k) == FIRST_PORT;
      assert Point(base, a.step, k) in Points(base, a.step, -k, k + 1);
    }
  }
}
