/**
 The public-port allocator of the dual-NAT simulator: the ring walk, the search for an unused port and the
 look-ahead that previews it.

 The random generator is a fixed stream read at a cursor. `words` answers the port draws and `coins` the
 draws made for packet faults; each draw moves the one shared cursor.
 */
module PortRing {
  import opened Arithmetic

  const FIRST_PORT := 1024
  const RING_SIZE := 64512

  datatype Mode = StepMode | RandomMode

  datatype Stream = Stream(words: nat -> int, coins: nat -> real)

  datatype Allocator = Allocator(mode: Mode, step: int, stream: Stream, nextPort: int, cursor: nat)

  datatype Search = Found(port: int, rest: Allocator) | Exhausted(rest: Allocator)

  predicate OnRing(port: int) {
    FIRST_PORT <= port < FIRST_PORT + RING_SIZE
  }

  function RandRange(word: int): (port: int)
    ensures OnRing(port)
  {
    FIRST_PORT + word % RING_SIZE
  }

  /** One call of the allocator, used port or not. */
  function Peek(a: Allocator): int {
    if a.mode.RandomMode? then RandRange(a.stream.words(a.cursor)) else a.nextPort
  }

  function Advance(a: Allocator): Allocator {
    if a.mode.RandomMode? then a.(cursor := a.cursor + 1)
    else a.(nextPort := FIRST_PORT + (a.nextPort - FIRST_PORT + a.step) % RING_SIZE)
  }

  function AdvanceBy(a: Allocator, count: nat): Allocator
    decreases count
  {
    if count == 0 then a else AdvanceBy(Advance(a), count - 1)
  }

  /** The port of draw number `i`, counting from zero. */
  function DrawAt(a: Allocator, i: nat): int {
    Peek(AdvanceBy(a, i))
  }

  /** At most `fuel` draws, stopping at the first port nobody uses. */
  function FindUnused(a: Allocator, used: set<int>, fuel: nat): Search
    decreases fuel
  {
    if fuel == 0 then Exhausted(a)
    else if Peek(a) !in used then Found(Peek(a), Advance(a))
    else FindUnused(Advance(a), used, fuel - 1)
  }

  function Allocate(a: Allocator, used: set<int>): Search {
    FindUnused(a, used, RING_SIZE)
  }

  lemma {:induction false} AdvanceByPlus(a: Allocator, i: nat, j: nat)
    ensures AdvanceBy(AdvanceBy(a, i), j) == AdvanceBy(a, i + j)
    decreases i
  {
    if i != 0 {
      AdvanceByPlus(Advance(a), i - 1, j);
    }
  }

  /** A search reports exactly the first unused draw, or that all its draws are used. */
  lemma {:induction false} FindUnusedIsFirst(a: Allocator, used: set<int>, fuel: nat)
    ensures FindUnused(a, used, fuel).Exhausted? <==> forall i | 0 <= i < fuel :: DrawAt(a, i) in used
    ensures FindUnused(a, used, fuel).Found? ==>
      exists n | 0 <= n < fuel ::
        && FindUnused(a, used, fuel) == Found(DrawAt(a, n), AdvanceBy(a, n + 1))
        && DrawAt(a, n) !in used
        && forall i | 0 <= i < n :: DrawAt(a, i) in used
    decreases fuel
  {
    if fuel == 0 {
    } else if Peek(a) !in used {
      assert DrawAt(a, 0) == Peek(a);
      assert AdvanceBy(a, 1) == AdvanceBy(Advance(a), 0) == Advance(a);
    } else {
      var b := Advance(a);
      FindUnusedIsFirst(b, used, fuel - 1);
      forall i | 1 <= i < fuel ensures DrawAt(a, i) == DrawAt(b, i - 1) {
      }
      assert DrawAt(a, 0) == Peek(a);
      if FindUnused(b, used, fuel - 1).Exhausted? {
        forall i | 0 <= i < fuel ensures DrawAt(a, i) in used {
          if i > 0 { assert DrawAt(a, i) == DrawAt(b, i - 1); }
        }
      } else {
        var n :| 0 <= n < fuel - 1 && FindUnused(b, used, fuel - 1) == Found(DrawAt(b, n), AdvanceBy(b, n + 1))
          && DrawAt(b, n) !in used && forall i | 0 <= i < n :: DrawAt(b, i) in used;
        forall i | 0 <= i < n + 1 ensures DrawAt(a, i) in used {
          if i > 0 { assert DrawAt(a, i) == DrawAt(b, i - 1); }
        }
        assert DrawAt(a, n + 1) == DrawAt(b, n);
        assert AdvanceBy(a, n + 2) == AdvanceBy(b, n + 1);
      }
    }
  }

  // ----- the step ring -----

  /** The spacing of the ports one step walk can ever reach. */
  function Spacing(step: int): (g: nat)
    ensures g > 0
  {
    GcdPositive(Abs(step), RING_SIZE);
    Gcd(Abs(step), RING_SIZE)
  }

  predicate OnWalk(a: Allocator, port: int) {
    OnRing(port) && (port - a.nextPort) % Spacing(a.step) == 0
  }

  lemma {:induction false} StepDraw(a: Allocator, i: nat)
    requires a.mode.StepMode? && OnRing(a.nextPort)
    ensures DrawAt(a, i) == FIRST_PORT + (a.nextPort - FIRST_PORT + i * a.step) % RING_SIZE
    decreases i
  {
    if i != 0 {
      var b := Advance(a);
      StepDraw(b, i - 1);
      var o := a.nextPort - FIRST_PORT;
      RemainderAbsorbs(o + a.step, (i - 1) * a.step, RING_SIZE);
      assert o + a.step + (i - 1) * a.step == o + i * a.step;
      assert DrawAt(a, i) == DrawAt(b, i - 1);
    }
  }

  lemma SpacingDivides(step: int)
    ensures Divides(Spacing(step), step) && Divides(Spacing(step), RING_SIZE)
  {
    GcdDivides(Abs(step), RING_SIZE);
    DividesMultiple(Spacing(step), Abs(step), if step < 0 then -1 else 1);
  }

  /** Every draw stays on the walk. */
  lemma DrawIsOnWalk(a: Allocator, i: nat)
    requires a.mode.StepMode? && OnRing(a.nextPort)
    ensures OnWalk(a, DrawAt(a, i))
  {
    StepDraw(a, i);
    SpacingDivides(a.step);
    var g, o := Spacing(a.step), a.nextPort - FIRST_PORT;
    var q := (o + i * a.step) / RING_SIZE;
    assert DrawAt(a, i) - a.nextPort == i * a.step + (-q) * RING_SIZE;
    DividesMultiple(g, a.step, i);
    DividesMultiple(g, RING_SIZE, -q);
    DividesSum(g, i * a.step, (-q) * RING_SIZE);
    DividesIsRemainderZero(g, DrawAt(a, i) - a.nextPort);
  }

  /** Every port of the walk is drawn within one turn of the ring. */
  lemma WalkIsDrawn(a: Allocator, port: int) returns (i: nat)
    requires a.mode.StepMode? && OnRing(a.nextPort) && OnWalk(a, port)
    ensures i < RING_SIZE && DrawAt(a, i) == port
  {
    var g, o := Spacing(a.step), a.nextPort - FIRST_PORT;
    var t := (port - a.nextPort) / g;
    assert port - a.nextPort == t * g;
    var z;
    i, z := ReachMultiple(a.step, RING_SIZE, t);
    RemainderIs(o + i * a.step, z, RING_SIZE, port - FIRST_PORT);
    StepDraw(a, i);
  }

  /** In step mode the allocator gives up exactly when its whole walk is in use, and never before. */
  lemma StepAllocationComplete(a: Allocator, used: set<int>)
    requires a.mode.StepMode? && OnRing(a.nextPort)
    ensures Allocate(a, used).Exhausted? <==> forall p | OnWalk(a, p) :: p in used
    ensures Allocate(a, used).Found? ==>
      && var p := Allocate(a, used).port;
      && OnWalk(a, p) && p !in used
      && var b := Allocate(a, used).rest;
      && b == a.(nextPort := b.nextPort) && OnWalk(a, b.nextPort)
  {
    FindUnusedIsFirst(a, used, RING_SIZE);
    if Allocate(a, used).Exhausted? {
      forall p | OnWalk(a, p) ensures p in used {
        var i := WalkIsDrawn(a, p);
      }
    } else {
      var n :| 0 <= n < RING_SIZE && FindUnused(a, used, RING_SIZE) == Found(DrawAt(a, n), AdvanceBy(a, n + 1))
        && DrawAt(a, n) !in used;
      DrawIsOnWalk(a, n);
      DrawIsOnWalk(a, n + 1);
      AdvanceByKeeps(a, n + 1);
    }
  }

  lemma {:induction false} AdvanceByKeeps(a: Allocator, i: nat)
    requires a.mode.StepMode?
    ensures AdvanceBy(a, i) == a.(nextPort := AdvanceBy(a, i).nextPort)
    decreases i
  {
    if i != 0 {
      AdvanceByKeeps(Advance(a), i - 1);
    }
  }

  /** With spacing one, a turn of the ring draws every port exactly once. */
  lemma OneTurnIsPermutation(a: Allocator)
    requires a.mode.StepMode? && OnRing(a.nextPort) && Spacing(a.step) == 1
    ensures forall p | OnRing(p) :: exists i :: 0 <= i < RING_SIZE && DrawAt(a, i) == p
    ensures forall i, j | 0 <= i < j < 64512 :: DrawAt(a, i) != DrawAt(a, j)
    ensures forall i: nat | i < 64512 :: 1024 <= DrawAt(a, i) <= 65535
  {
    forall i: nat | i < 64512 ensures 1024 <= DrawAt(a, i) <= 65535 { StepDraw(a, i); }
    forall p | OnRing(p) ensures exists i :: 0 <= i < RING_SIZE && DrawAt(a, i) == p {
      var i := WalkIsDrawn(a, p);
    }
    forall i, j | 0 <= i < j < RING_SIZE ensures DrawAt(a, i) != DrawAt(a, j) {
      if DrawAt(a, i) == DrawAt(a, j) {
        DrawsRepeatEvery(a, i, j);
      }
    }
  }

  lemma DrawsRepeatEvery(a: Allocator, i: nat, j: nat)
    requires a.mode.StepMode? && OnRing(a.nextPort) && Spacing(a.step) == 1
    requires DrawAt(a, i) == DrawAt(a, j)
    ensures (j - i) % RING_SIZE == 0
  {
    StepDraw(a, i);
    StepDraw(a, j);
    var o := a.nextPort - FIRST_PORT;
    var qi, qj := (o + i * a.step) / RING_SIZE, (o + j * a.step) / RING_SIZE;
    var d, q := j - i, qj - qi;
    assert d * a.step == q * RING_SIZE by {
      assert j * a.step - i * a.step == (qj - qi) * RING_SIZE;
      assert d * a.step == j * a.step - i * a.step;
    }
    CoprimeCancels(a.step, RING_SIZE, d, q);
  }

  // ----- the look-ahead -----

  /** What the real allocator hands out when each port it returns is marked used before the next call. */
  function Future(a: Allocator, used: set<int>, count: nat): seq<int> {
    FutureFrom(a, used, count, RING_SIZE)
  }

  function FutureFrom(a: Allocator, used: set<int>, count: nat, fuel: nat): seq<int>
    decreases count
  {
    if count == 0 then []
    else
      match FindUnused(a, used, fuel)
      case Exhausted(_) => []
      case Found(port, rest) => [port] + FutureFrom(rest, used + {port}, count - 1, RING_SIZE)
  }

  /** The look-ahead: one budget of `fuel` draws for the whole list. */
  function Preview(a: Allocator, reserved: set<int>, count: nat, fuel: nat): seq<int>
    decreases fuel
  {
    if count == 0 || fuel == 0 then []
    else if Peek(a) in reserved then Preview(Advance(a), reserved, count, fuel - 1)
    else [Peek(a)] + Preview(Advance(a), reserved + {Peek(a)}, count - 1, fuel - 1)
  }

  /** The look-ahead never announces a port that the allocator will not hand out, in that order. */
  lemma {:induction false} PreviewIsPrefixOfFuture(a: Allocator, used: set<int>, count: nat, fuel: nat, budget: nat)
    requires fuel <= budget <= RING_SIZE
    ensures Preview(a, used, count, fuel) <= FutureFrom(a, used, count, budget)
    decreases fuel
  {
    if count == 0 || fuel == 0 {
    } else if Peek(a) in used {
      PreviewIsPrefixOfFuture(Advance(a), used, count, fuel - 1, budget - 1);
      assert FutureFrom(a, used, count, budget) == FutureFrom(Advance(a), used, count, budget - 1);
    } else {
      PreviewIsPrefixOfFuture(Advance(a), used + {Peek(a)}, count - 1, fuel - 1, RING_SIZE);
    }
  }

  /** A short preview has read every draw of its budget, and each is used or announced. */
  lemma {:induction false} ShortPreviewReadEverything(a: Allocator, used: set<int>, count: nat, fuel: nat)
    requires |Preview(a, used, count, fuel)| < count
    ensures forall i | 0 <= i < fuel :: DrawAt(a, i) in used || DrawAt(a, i) in Preview(a, used, count, fuel)
    decreases fuel
  {
    if fuel != 0 {
      var b := Advance(a);
      var isNew := Peek(a) !in used;
      var used', count' := if isNew then used + {Peek(a)} else used, if isNew then count - 1 else count;
      ShortPreviewReadEverything(b, used', count', fuel - 1);
      forall i | 0 <= i < fuel ensures DrawAt(a, i) in used || DrawAt(a, i) in Preview(a, used, count, fuel) {
        if i > 0 {
          assert DrawAt(a, i) == DrawAt(b, i - 1);
        } else {
          assert DrawAt(a, i) == Peek(a);
        }
      }
    }
  }

  function Elements(s: seq<int>): set<int> {
    set p | p in s
  }

  /** After the announced ports are taken, a short preview in step mode means the next allocation fails. */
  lemma ShortPreviewMeansExhausted(a: Allocator, used: set<int>, count: nat, rest: Allocator)
    requires a.mode.StepMode? && OnRing(a.nextPort)
    requires |Preview(a, used, count, RING_SIZE)| < count
    requires rest == a.(nextPort := rest.nextPort) && OnWalk(a, rest.nextPort)
    ensures Allocate(rest, used + Elements(Preview(a, used, count, RING_SIZE))).Exhausted?
  {
    ShortPreviewReadEverything(a, used, count, RING_SIZE);
    var taken := used + Elements(Preview(a, used, count, RING_SIZE));
    forall p | OnWalk(rest, p) ensures p in taken {
      SameWalk(a, rest.nextPort, p);
      var i := WalkIsDrawn(a, p);
    }
    StepAllocationComplete(rest, taken);
  }

  /** A walk is the same whichever of its ports it starts from. */
  lemma SameWalk(a: Allocator, start: int, p: int)
    requires OnWalk(a, start)
    ensures OnWalk(a.(nextPort := start), p) <==> OnWalk(a, p)
  {
    var g := Spacing(a.step);
    DividesIsRemainderZero(g, start - a.nextPort);
    DividesIsRemainderZero(g, p - start);
    DividesIsRemainderZero(g, p - a.nextPort);
    if Divides(g, p - start) {
      DividesSum(g, p - start, start - a.nextPort);
    }
    if Divides(g, p - a.nextPort) {
      DividesSum(g, p - a.nextPort, start - a.nextPort);
    }
  }

  /** In step mode the look-ahead is the whole future: same ports, same order, same length. */
  lemma StepPreviewIsFuture(a: Allocator, used: set<int>, count: nat)
    requires a.mode.StepMode? && OnRing(a.nextPort)
    ensures Preview(a, used, count, RING_SIZE) == Future(a, used, count)
  {
    var ahead, actual := Preview(a, used, count, RING_SIZE), Future(a, used, count);
    PreviewIsPrefixOfFuture(a, used, count, RING_SIZE, RING_SIZE);
    if |ahead| < count {
      if |ahead| < |actual| {
        assert actual[..|ahead|] == ahead;
        var rest := FutureRest(a, used, count, |ahead|);
        ShortPreviewMeansExhausted(a, used, count, rest);
      }
    } else {
      FutureLength(a, used, count, RING_SIZE);
    }
  }

  lemma {:induction false} FutureLength(a: Allocator, used: set<int>, count: nat, fuel: nat)
    ensures |FutureFrom(a, used, count, fuel)| <= count
    decreases count
  {
    if count != 0 {
      match FindUnused(a, used, fuel)
      case Exhausted(_) =>
      case Found(port, rest) => FutureLength(rest, used + {port}, count - 1, RING_SIZE);
    }
  }

  /** The allocator after its first `taken` outputs, when there is another one to come. */
  lemma {:induction false} FutureRest(a: Allocator, used: set<int>, count: nat, taken: nat) returns (rest: Allocator)
    requires a.mode.StepMode? && OnRing(a.nextPort)
    requires taken < |Future(a, used, count)|
    ensures rest == a.(nextPort := rest.nextPort) && OnWalk(a, rest.nextPort)
    ensures Allocate(rest, used + Elements(Future(a, used, count)[..taken])).Found?
    decreases taken
  {
    var actual := Future(a, used, count);
    if taken == 0 {
      rest := a;
      assert used + Elements(actual[..0]) == used;
    } else {
      StepAllocationComplete(a, used);
      var b, p := Allocate(a, used).rest, Allocate(a, used).port;
      rest := FutureRest(b, used + {p}, count - 1, taken - 1);
      SameWalk(a, b.nextPort, rest.nextPort);
      assert actual[..taken] == [p] + actual[1..][..taken - 1];
      assert used + Elements(actual[..taken]) == used + {p} + Elements(actual[1..][..taken - 1]);
    }
  }
}
