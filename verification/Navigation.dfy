/** Taxi navigation on a torus of side 2 * r: the taxi's greedy step, and why it is optimal. */
module Navigation {
  import opened Protocol

  /** The map's mirror point and side. */
  const REFERENCE := 10
  const SIDE := 20

  function Abs(n: int): int { if n < 0 then -n else n }

  function Min(a: int, b: int): int { if b < a then b else a }

  function Max(a: int, b: int): int { if a < b then b else a }

  /** The mirror of n with respect to the reference: Mirror(11, 10) is 9. */
  function Mirror(n: int, reference: int): int { 2 * reference - n }

  /** The remainder of C++, which takes the sign of the dividend. */
  function Remainder(a: int, m: int): int
    requires m > 0
  {
    if a >= 0 then a % m else -(-a % m)
  }

  /** The wrap-around of one coordinate. */
  function Wrap(v: int, r: int): int
    requires r > 0
  {
    var t := Remainder(v, 2 * r);
    if t < 0 then t + 2 * r else t
  }

  predicate OnAxis(v: int, r: int) { 0 <= v < 2 * r }

  predicate InGrid(c: Coordinate, r: int) { OnAxis(c.x, r) && OnAxis(c.y, r) }

  function AxisDistance(u: int, v: int, r: int): int {
    var d := Abs(u - v);
    Min(d, Mirror(d, r))
  }

  function CalculateDistance(a: Coordinate, b: Coordinate, r: int): int {
    AxisDistance(a.x, b.x, r) + AxisDistance(a.y, b.y, r)
  }

  /** The number of king moves between two cells of the torus. */
  function Chebyshev(a: Coordinate, b: Coordinate, r: int): int {
    Max(AxisDistance(a.x, b.x, r), AxisDistance(a.y, b.y, r))
  }

  /** A king's move: at most one cell along each axis, and not none. */
  predicate IsMove(d: Coordinate) {
    -1 <= d.x <= 1 && -1 <= d.y <= 1 && !(d.x == 0 && d.y == 0)
  }

  function Moved(p: Coordinate, d: Coordinate, r: int): Coordinate
    requires r > 0
  {
    Coordinate(Wrap(p.x + d.x, r), Wrap(p.y + d.y, r))
  }

  /** The table of moves, in the order they are tried. */
  function Direction(k: nat): (d: Coordinate)
    requires k < 8
    ensures IsMove(d)
  {
    match k
    case 0 => Coordinate(1, 0)
    case 1 => Coordinate(1, 1)
    case 2 => Coordinate(0, 1)
    case 3 => Coordinate(-1, 1)
    case 4 => Coordinate(-1, 0)
    case 5 => Coordinate(-1, -1)
    case 6 => Coordinate(0, -1)
    case _ => Coordinate(1, -1)
  }

  function Neighbours(p: Coordinate, r: int): (cells: seq<Coordinate>)
    requires r > 0
    ensures |cells| == 8
  {
    seq(8, k requires 0 <= k < 8 => Moved(p, Direction(k), r))
  }

  /** The earliest of the cells that is nearest to the destination. */
  function Nearest(cells: seq<Coordinate>, dest: Coordinate, r: int): Coordinate
    requires cells != []
  {
    var n := |cells| - 1;
    if n == 0 then cells[0]
    else
      var best := Nearest(cells[..n], dest, r);
      if CalculateDistance(cells[n], dest, r) < CalculateDistance(best, dest, r) then cells[n] else best
  }

  function Step(p: Coordinate, dest: Coordinate, r: int): Coordinate
    requires r > 0
  {
    if p == dest then p else Nearest(Neighbours(p, r), dest, r)
  }

  function Walk(p: Coordinate, dest: Coordinate, n: nat, r: int): Coordinate
    requires r > 0
    decreases n
  {
    if n == 0 then p else Walk(Step(p, dest, r), dest, n - 1, r)
  }

  ghost predicate KingMove(p: Coordinate, q: Coordinate, r: int)
    requires r > 0
  {
    exists d :: IsMove(d) && q == Moved(p, d, r)
  }

  /** A walk of any strategy: each cell is one of the eight wrapped neighbours of the one before. */
  ghost predicate KingWalk(path: seq<Coordinate>, r: int)
    requires r > 0
  {
    && |path| > 0
    && forall i :: 0 < i < |path| ==> KingMove(path[i - 1], path[i], r)
  }

  // ---------------------------------------------------------------- the distance is the torus metric

  lemma TimesAtLeast(a: int, k: int)
    requires a >= 0 && k >= 1
    ensures a * k >= a
  {
  }

  /** The distance is the least L1 distance over all integer wraps of the map. */
  lemma AxisDistanceIsLeast(u: int, v: int, r: int)
    requires r > 0 && OnAxis(u, r) && OnAxis(v, r)
    ensures forall k: int :: AxisDistance(u, v, r) <= Abs(u - v + 2 * r * k)
    ensures exists k: int :: AxisDistance(u, v, r) == Abs(u - v + 2 * r * k)
  {
    forall k: int ensures AxisDistance(u, v, r) <= Abs(u - v + 2 * r * k) {
      if k >= 1 {
        TimesAtLeast(2 * r, k);
      } else if k <= -1 {
        TimesAtLeast(2 * r, -k);
        assert 2 * r * k == -(2 * r * -k);
      }
    }
    var k := if Abs(u - v) <= r then 0 else if u > v then -1 else 1;
    assert 2 * r * 0 == 0 && 2 * r * 1 == 2 * r && 2 * r * -1 == -2 * r;
    assert AxisDistance(u, v, r) == Abs(u - v + 2 * r * k);
  }

  lemma DistanceIsLeastOverWraps(a: Coordinate, b: Coordinate, r: int)
    requires r > 0 && InGrid(a, r) && InGrid(b, r)
    ensures forall i: int, j: int ::
              CalculateDistance(a, b, r) <= Abs(a.x - b.x + 2 * r * i) + Abs(a.y - b.y + 2 * r * j)
    ensures exists i: int, j: int ::
              CalculateDistance(a, b, r) == Abs(a.x - b.x + 2 * r * i) + Abs(a.y - b.y + 2 * r * j)
  {
    AxisDistanceIsLeast(a.x, b.x, r);
    AxisDistanceIsLeast(a.y, b.y, r);
    var i: int :| AxisDistance(a.x, b.x, r) == Abs(a.x - b.x + 2 * r * i);
    var j: int :| AxisDistance(a.y, b.y, r) == Abs(a.y - b.y + 2 * r * j);
    assert CalculateDistance(a, b, r) == Abs(a.x - b.x + 2 * r * i) + Abs(a.y - b.y + 2 * r * j);
  }

  lemma AxisTriangle(u: int, v: int, w: int, r: int)
    requires r > 0 && OnAxis(u, r) && OnAxis(v, r) && OnAxis(w, r)
    ensures AxisDistance(u, w, r) <= AxisDistance(u, v, r) + AxisDistance(v, w, r)
  {
  }

  lemma AxisIsMetric(u: int, v: int, r: int)
    requires r > 0 && OnAxis(u, r) && OnAxis(v, r)
    ensures AxisDistance(u, v, r) == AxisDistance(v, u, r) >= 0
    ensures AxisDistance(u, v, r) == 0 <==> u == v
  {
  }

  /** On the grid, the distance is a metric. */
  lemma DistanceIsMetric(a: Coordinate, b: Coordinate, c: Coordinate, r: int)
    requires r > 0 && InGrid(a, r) && InGrid(b, r) && InGrid(c, r)
    ensures CalculateDistance(a, b, r) >= 0
    ensures CalculateDistance(a, b, r) == 0 <==> a == b
    ensures CalculateDistance(a, b, r) == CalculateDistance(b, a, r)
    ensures CalculateDistance(a, c, r) <= CalculateDistance(a, b, r) + CalculateDistance(b, c, r)
  {
    AxisIsMetric(a.x, b.x, r);
    AxisIsMetric(a.y, b.y, r);
    AxisTriangle(a.x, b.x, c.x, r);
    AxisTriangle(a.y, b.y, c.y, r);
  }

  // ---------------------------------------------------------------- one step

  lemma WrapOnAxis(v: int, r: int)
    requires r > 0
    ensures OnAxis(Wrap(v, r), r)
  {
  }

  lemma ModBelow(v: int, m: int)
    requires 0 <= v < m
    ensures v % m == v
  {
  }

  /** On the grid, the truncating remainder still wraps to the opposite edge. */
  lemma WrapAroundEdge(v: int, r: int)
    requires r > 0 && -1 <= v <= 2 * r
    ensures Wrap(v, r) == if v == -1 then 2 * r - 1 else if v == 2 * r then 0 else v
  {
    if v == -1 {
      ModBelow(1, 2 * r);
    } else if v < 2 * r {
      ModBelow(v, 2 * r);
    }
  }

  /** A move changes an axis distance by exactly one; only the side's parity makes it so. */
  lemma AxisMove(u: int, v: int, d: int, r: int)
    requires r > 0 && OnAxis(u, r) && OnAxis(v, r) && -1 <= d <= 1
    ensures var before, after := AxisDistance(u, v, r), AxisDistance(Wrap(u + d, r), v, r);
            && (d == 0 ==> after == before)
            && (d != 0 && before == 0 ==> after == 1)
            && (d != 0 ==> after == before - 1 || after == before + 1)
  {
    WrapAroundEdge(u + d, r);
  }

  /** The move that brings u nearer to v, and 0 when it is there. */
  function Toward(u: int, v: int, r: int): int {
    if u == v then 0
    else if v > u then (if v - u <= r then 1 else -1)
    else (if u - v <= r then -1 else 1)
  }

  lemma TowardApproaches(u: int, v: int, r: int)
    requires r > 0 && OnAxis(u, r) && OnAxis(v, r)
    ensures AxisDistance(Wrap(u + Toward(u, v, r), r), v, r) == Max(AxisDistance(u, v, r) - 1, 0)
  {
    WrapAroundEdge(u + Toward(u, v, r), r);
  }

  lemma MoveHasDirection(d: Coordinate) returns (k: nat)
    requires IsMove(d)
    ensures k < 8 && Direction(k) == d
  {
    k := if d.x == 1 then (if d.y == 0 then 0 else if d.y == 1 then 1 else 7)
         else if d.x == 0 then (if d.y == 1 then 2 else 6)
         else if d.y == 1 then 3 else if d.y == 0 then 4 else 5;
  }

  /** The scan keeps the earliest cell of least distance. */
  lemma {:induction false} NearestIsFirstMinimum(cells: seq<Coordinate>, dest: Coordinate, r: int) returns (k: nat)
    requires cells != []
    ensures k < |cells| && Nearest(cells, dest, r) == cells[k]
    ensures forall j: nat :: j < |cells| ==>
              CalculateDistance(cells[k], dest, r) <= CalculateDistance(cells[j], dest, r)
    ensures forall j: nat :: j < k ==>
              CalculateDistance(cells[k], dest, r) < CalculateDistance(cells[j], dest, r)
  {
    var n := |cells| - 1;
    if n == 0 {
      k := 0;
    } else {
      var front := cells[..n];
      k := NearestIsFirstMinimum(front, dest, r);
      assert Nearest(front, dest, r) == front[k] == cells[k];
      forall j: nat | j < n ensures CalculateDistance(cells[k], dest, r) <= CalculateDistance(cells[j], dest, r) {
        assert front[j] == cells[j];
      }
      forall j: nat | j < k ensures CalculateDistance(cells[k], dest, r) < CalculateDistance(cells[j], dest, r) {
        assert front[j] == cells[j];
      }
      if CalculateDistance(cells[n], dest, r) < CalculateDistance(cells[k], dest, r) {
        k := n;
      }
    }
  }

  /** A step is a king's move, and none of the eight ends nearer. */
  lemma StepIsBestMove(p: Coordinate, dest: Coordinate, r: int) returns (d: Coordinate)
    requires r > 0 && p != dest
    ensures IsMove(d) && Step(p, dest, r) == Moved(p, d, r)
    ensures forall e :: IsMove(e) ==>
              CalculateDistance(Step(p, dest, r), dest, r) <= CalculateDistance(Moved(p, e, r), dest, r)
  {
    var cells := Neighbours(p, r);
    var k := NearestIsFirstMinimum(cells, dest, r);
    d := Direction(k);
    forall e | IsMove(e)
      ensures CalculateDistance(Step(p, dest, r), dest, r) <= CalculateDistance(Moved(p, e, r), dest, r)
    {
      var j := MoveHasDirection(e);
      assert cells[j] == Moved(p, e, r);
    }
  }

  lemma MovedInGrid(p: Coordinate, d: Coordinate, r: int)
    requires r > 0
    ensures InGrid(Moved(p, d, r), r)
  {
    WrapOnAxis(p.x + d.x, r);
    WrapOnAxis(p.y + d.y, r);
  }

  lemma StepStaysInGrid(p: Coordinate, dest: Coordinate, r: int)
    requires r > 0 && (InGrid(p, r) || p != dest)
    ensures InGrid(Step(p, dest, r), r)
  {
    if p != dest {
      var d := StepIsBestMove(p, dest, r);
      MovedInGrid(p, d, r);
    }
  }

  /** No move shortens an axis distance by more than one. */
  lemma MoveShrinksByOne(p: Coordinate, dest: Coordinate, d: Coordinate, r: int)
    requires r > 0 && InGrid(p, r) && InGrid(dest, r) && IsMove(d)
    ensures AxisDistance(Moved(p, d, r).x, dest.x, r) >= Max(AxisDistance(p.x, dest.x, r) - 1, 0)
    ensures AxisDistance(Moved(p, d, r).y, dest.y, r) >= Max(AxisDistance(p.y, dest.y, r) - 1, 0)
  {
    AxisMove(p.x, dest.x, d.x, r);
    AxisMove(p.y, dest.y, d.y, r);
  }

  lemma StraightMove(p: Coordinate, dest: Coordinate, r: int) returns (e: Coordinate)
    requires r > 0 && InGrid(p, r) && InGrid(dest, r) && p != dest
    ensures IsMove(e)
    ensures CalculateDistance(Moved(p, e, r), dest, r)
         == Max(AxisDistance(p.x, dest.x, r) - 1, 0) + Max(AxisDistance(p.y, dest.y, r) - 1, 0)
  {
    TowardApproaches(p.x, dest.x, r);
    TowardApproaches(p.y, dest.y, r);
    e := Coordinate(Toward(p.x, dest.x, r), Toward(p.y, dest.y, r));
  }

  /** The greedy L1 choice shrinks both axis distances at once wherever they are not yet zero. */
  lemma StepShrinksBothAxes(p: Coordinate, dest: Coordinate, r: int)
    requires r > 0 && InGrid(p, r) && InGrid(dest, r)
    ensures AxisDistance(Step(p, dest, r).x, dest.x, r) == Max(AxisDistance(p.x, dest.x, r) - 1, 0)
    ensures AxisDistance(Step(p, dest, r).y, dest.y, r) == Max(AxisDistance(p.y, dest.y, r) - 1, 0)
  {
    if p != dest {
      var d := StepIsBestMove(p, dest, r);
      var e := StraightMove(p, dest, r);
      MoveShrinksByOne(p, dest, d, r);
    }
  }

  /** Every step away from the destination comes strictly nearer, in both measures. */
  lemma StepApproaches(p: Coordinate, dest: Coordinate, r: int)
    requires r > 0 && InGrid(p, r) && InGrid(dest, r) && p != dest
    ensures CalculateDistance(Step(p, dest, r), dest, r) < CalculateDistance(p, dest, r)
    ensures Chebyshev(Step(p, dest, r), dest, r) == Chebyshev(p, dest, r) - 1
  {
    StepShrinksBothAxes(p, dest, r);
  }

  // ---------------------------------------------------------------- the step in closed form

  /** How far v is from u going up the axis. */
  function Upward(u: int, v: int, r: int): int { if v >= u then v - u else v - u + 2 * r }

  /** The vertical turn: the shorter way, and up the axis when both ways are as long. */
  function TurnY(p: Coordinate, dest: Coordinate, r: int): int {
    if p.y == dest.y then 0 else if Upward(p.y, dest.y, r) <= r then 1 else -1
  }

  /** The horizontal turn: the shorter way; when both are as long, up the axis unless the vertical turn goes down. */
  function TurnX(p: Coordinate, dest: Coordinate, r: int): int {
    var a := Upward(p.x, dest.x, r);
    if p.x == dest.x then 0 else if a < r || (a == r && TurnY(p, dest, r) != -1) then 1 else -1
  }

  /** A turn along an axis that brings it nearer, or keeps it where it is if it is there. */
  predicate RightTurn(u: int, v: int, d: int, r: int) {
    if u == v then d == 0
    else if Upward(u, v, r) < r then d == 1
    else if Upward(u, v, r) > r then d == -1
    else d != 0
  }

  lemma TurnsRightIff(u: int, v: int, d: int, r: int)
    requires r > 0 && OnAxis(u, r) && OnAxis(v, r) && -1 <= d <= 1
    ensures AxisDistance(Wrap(u + d, r), v, r) >= Max(AxisDistance(u, v, r) - 1, 0)
    ensures RightTurn(u, v, d, r) <==> AxisDistance(Wrap(u + d, r), v, r) == Max(AxisDistance(u, v, r) - 1, 0)
  {
    WrapAroundEdge(u + d, r);
  }

  predicate RightMove(p: Coordinate, dest: Coordinate, d: Coordinate, r: int) {
    RightTurn(p.x, dest.x, d.x, r) && RightTurn(p.y, dest.y, d.y, r)
  }

  /** Where the best move ends. */
  function Nearer(p: Coordinate, dest: Coordinate, r: int): int {
    Max(AxisDistance(p.x, dest.x, r) - 1, 0) + Max(AxisDistance(p.y, dest.y, r) - 1, 0)
  }

  lemma SumsMeetIff(a: int, b: int, c: int, d: int)
    requires a >= c && b >= d
    ensures a + b >= c + d && (a + b == c + d <==> a == c && b == d)
  {
  }

  lemma BestMoveIff(p: Coordinate, dest: Coordinate, d: Coordinate, r: int)
    requires r > 0 && InGrid(p, r) && InGrid(dest, r) && IsMove(d)
    ensures CalculateDistance(Moved(p, d, r), dest, r) >= Nearer(p, dest, r)
    ensures CalculateDistance(Moved(p, d, r), dest, r) == Nearer(p, dest, r) <==> RightMove(p, dest, d, r)
  {
    TurnsRightIff(p.x, dest.x, d.x, r);
    TurnsRightIff(p.y, dest.y, d.y, r);
    SumsMeetIff(AxisDistance(Wrap(p.x + d.x, r), dest.x, r), AxisDistance(Wrap(p.y + d.y, r), dest.y, r),
                Max(AxisDistance(p.x, dest.x, r) - 1, 0), Max(AxisDistance(p.y, dest.y, r) - 1, 0));
  }

  /** How far the k-th move of the table leaves the taxi. */
  function Left(p: Coordinate, dest: Coordinate, k: nat, r: int): int
    requires r > 0 && k < 8
  {
    CalculateDistance(Moved(p, Direction(k), r), dest, r)
  }

  lemma RightIff(p: Coordinate, dest: Coordinate, k: nat, r: int)
    requires r > 0 && InGrid(p, r) && InGrid(dest, r) && k < 8
    ensures Left(p, dest, k, r) >= Nearer(p, dest, r)
    ensures Left(p, dest, k, r) == Nearer(p, dest, r) <==> RightMove(p, dest, Direction(k), r)
  {
    BestMoveIff(p, dest, Direction(k), r);
  }

  lemma SomeMoveIsRight(p: Coordinate, dest: Coordinate, r: int) returns (i: nat)
    requires r > 0 && InGrid(p, r) && InGrid(dest, r) && p != dest
    ensures i < 8 && Left(p, dest, i, r) == Nearer(p, dest, r)
  {
    var e := StraightMove(p, dest, r);
    i := MoveHasDirection(e);
  }

  /** The scan of the table ends at the first of the moves that leave the taxi nearest. */
  lemma StepIsFirstBest(p: Coordinate, dest: Coordinate, r: int) returns (k: nat)
    requires r > 0 && p != dest
    ensures k < 8 && Step(p, dest, r) == Moved(p, Direction(k), r)
    ensures forall j: nat :: j < 8 ==> Left(p, dest, k, r) <= Left(p, dest, j, r)
    ensures forall j: nat :: j < k ==> Left(p, dest, k, r) < Left(p, dest, j, r)
  {
    var cells := Neighbours(p, r);
    k := NearestIsFirstMinimum(cells, dest, r);
    forall j: nat | j < 8 ensures CalculateDistance(cells[j], dest, r) == Left(p, dest, j, r) {
      assert cells[j] == Moved(p, Direction(j), r);
    }
  }

  lemma FirstBestIsFirstRight(p: Coordinate, dest: Coordinate, k: nat, r: int)
    requires r > 0 && InGrid(p, r) && InGrid(dest, r) && p != dest && k < 8
    requires forall j: nat :: j < 8 ==> Left(p, dest, k, r) <= Left(p, dest, j, r)
    requires forall j: nat :: j < k ==> Left(p, dest, k, r) < Left(p, dest, j, r)
    ensures RightMove(p, dest, Direction(k), r)
    ensures forall j: nat :: j < k ==> !RightMove(p, dest, Direction(j), r)
  {
    var i := SomeMoveIsRight(p, dest, r);
    var nearer := Nearer(p, dest, r);
    assert Left(p, dest, k, r) <= Left(p, dest, i, r) == nearer;
    RightIff(p, dest, k, r);
    forall j: nat | j < k ensures !RightMove(p, dest, Direction(j), r) {
      assert Left(p, dest, j, r) > nearer;
      RightIff(p, dest, j, r);
    }
  }

  /** Of the right moves, the first in the table is the one of the closed form. */
  lemma FirstRightMove(p: Coordinate, dest: Coordinate, k: nat, r: int)
    requires r > 0 && InGrid(p, r) && InGrid(dest, r) && p != dest
    requires k < 8 && RightMove(p, dest, Direction(k), r)
    requires forall j: nat :: j < k ==> !RightMove(p, dest, Direction(j), r)
    ensures Direction(k) == Coordinate(TurnX(p, dest, r), TurnY(p, dest, r))
  {
    var first := Coordinate(TurnX(p, dest, r), TurnY(p, dest, r));
    assert RightMove(p, dest, first, r);
    var i := MoveHasDirection(first);
    assert k <= i;
    FirstInTable(p, dest, k, i, r);
  }

  lemma FirstInTable(p: Coordinate, dest: Coordinate, k: nat, i: nat, r: int)
    requires r > 0 && InGrid(p, r) && InGrid(dest, r) && k <= i < 8
    requires RightMove(p, dest, Direction(k), r)
    requires Direction(i) == Coordinate(TurnX(p, dest, r), TurnY(p, dest, r))
    ensures Direction(k) == Direction(i)
  {
  }

  /** Where a step goes, ties and all: towards the destination on both axes at once, the shorter way round; between
      equally long ways up the axis, but to the left when it must go down as well. */
  lemma StepGoes(p: Coordinate, dest: Coordinate, r: int)
    requires r > 0 && InGrid(p, r) && InGrid(dest, r) && p != dest
    ensures Step(p, dest, r) == Coordinate(Wrap(p.x + TurnX(p, dest, r), r), Wrap(p.y + TurnY(p, dest, r), r))
  {
    var k := StepIsFirstBest(p, dest, r);
    FirstBestIsFirstRight(p, dest, k, r);
    FirstRightMove(p, dest, k, r);
  }

  // ---------------------------------------------------------------- whole walks

  lemma {:induction false} WalkClosesIn(p: Coordinate, dest: Coordinate, n: nat, r: int)
    requires r > 0 && InGrid(p, r) && InGrid(dest, r)
    ensures InGrid(Walk(p, dest, n, r), r)
    ensures Chebyshev(Walk(p, dest, n, r), dest, r) == Max(Chebyshev(p, dest, r) - n, 0)
    decreases n
  {
    if n > 0 {
      StepStaysInGrid(p, dest, r);
      StepShrinksBothAxes(p, dest, r);
      WalkClosesIn(Step(p, dest, r), dest, n - 1, r);
    }
  }

  lemma {:induction false} WalkStep(p: Coordinate, dest: Coordinate, n: nat, r: int)
    requires r > 0
    ensures Walk(p, dest, n + 1, r) == Step(Walk(p, dest, n, r), dest, r)
    decreases n
  {
    if n > 0 {
      WalkStep(Step(p, dest, r), dest, n - 1, r);
    }
  }

  lemma MoveIsOneAway(p: Coordinate, d: Coordinate, target: Coordinate, r: int)
    requires r > 0 && IsMove(d) && InGrid(p, r) && InGrid(target, r)
    ensures Chebyshev(Moved(p, d, r), target, r) >= Chebyshev(p, target, r) - 1
  {
    MoveShrinksByOne(p, target, d, r);
  }

  /** No walk of eight-direction moves is shorter than the Chebyshev distance of its ends. */
  lemma {:induction false} WalksAreLong(path: seq<Coordinate>, r: int)
    requires r > 0 && KingWalk(path, r) && InGrid(path[0], r) && InGrid(path[|path| - 1], r)
    ensures |path| - 1 >= Chebyshev(path[0], path[|path| - 1], r)
    decreases |path|
  {
    if |path| > 1 {
      assert KingMove(path[0], path[1], r);
      var d :| IsMove(d) && path[1] == Moved(path[0], d, r);
      MovedInGrid(path[0], d, r);
      MoveIsOneAway(path[0], d, path[|path| - 1], r);
      var rest := path[1..];
      forall i | 0 < i < |rest| ensures KingMove(rest[i - 1], rest[i], r) {
        assert rest[i] == path[i + 1] && rest[i - 1] == path[i];
      }
      WalksAreLong(rest, r);
    }
  }

  /** The cells the taxi visits on its way. */
  function GreedyPath(p: Coordinate, dest: Coordinate, r: int, n: nat): (path: seq<Coordinate>)
    requires r > 0
    ensures |path| == n + 1 && path[0] == p
    decreases n
  {
    if n == 0 then [p] else [p] + GreedyPath(Step(p, dest, r), dest, r, n - 1)
  }

  lemma {:induction false} GreedyPathIsKingWalk(p: Coordinate, dest: Coordinate, r: int, n: nat)
    requires r > 0 && InGrid(p, r) && InGrid(dest, r) && n <= Chebyshev(p, dest, r)
    ensures KingWalk(GreedyPath(p, dest, r, n), r)
    ensures GreedyPath(p, dest, r, n)[n] == Walk(p, dest, n, r)
    decreases n
  {
    if n > 0 {
      var path, rest := GreedyPath(p, dest, r, n), GreedyPath(Step(p, dest, r), dest, r, n - 1);
      StepStaysInGrid(p, dest, r);
      StepApproaches(p, dest, r);
      GreedyPathIsKingWalk(Step(p, dest, r), dest, r, n - 1);
      var d := StepIsBestMove(p, dest, r);
      forall i | 0 < i < |path| ensures KingMove(path[i - 1], path[i], r) {
        if i == 1 {
          assert path[1] == rest[0] == Moved(path[0], d, r);
        } else {
          assert path[i] == rest[i - 1] && path[i - 1] == rest[i - 2];
        }
      }
    }
  }

  /** The greedy walk arrives after exactly the Chebyshev distance, and no king walk arrives sooner. */
  lemma GreedyWalkIsOptimal(p: Coordinate, dest: Coordinate, r: int)
    requires r > 0 && InGrid(p, r) && InGrid(dest, r)
    ensures var d := Chebyshev(p, dest, r);
            && d >= 0
            && KingWalk(GreedyPath(p, dest, r, d), r) && GreedyPath(p, dest, r, d)[d] == dest
            && (forall n: nat :: Walk(p, dest, n, r) == dest <==> n >= d)
            && (forall path :: KingWalk(path, r) && path[0] == p && path[|path| - 1] == dest ==> |path| - 1 >= d)
  {
    var d := Chebyshev(p, dest, r);
    forall n: nat ensures Walk(p, dest, n, r) == dest <==> n >= d {
      WalkClosesIn(p, dest, n, r);
      assert dest != Walk(p, dest, n, r) <==> Chebyshev(Walk(p, dest, n, r), dest, r) > 0;
    }
    GreedyPathIsKingWalk(p, dest, r, d);
    forall path | KingWalk(path, r) && path[0] == p && path[|path| - 1] == dest ensures |path| - 1 >= d {
      WalksAreLong(path, r);
    }
  }

  lemma {:induction false} WalkStaysInGrid(p: Coordinate, dest: Coordinate, n: nat, r: int)
    requires r > 0 && InGrid(p, r)
    ensures InGrid(Walk(p, dest, n, r), r)
    decreases n
  {
    if n > 0 {
      StepStaysInGrid(p, dest, r);
      WalkStaysInGrid(Step(p, dest, r), dest, n - 1, r);
    }
  }

  /** A taxi on the map arrives if and only if its destination is on the map. */
  lemma ArrivesIffDestinationInGrid(p: Coordinate, dest: Coordinate, r: int)
    requires r > 0 && InGrid(p, r)
    ensures (exists n: nat :: Walk(p, dest, n, r) == dest) <==> InGrid(dest, r)
  {
    if InGrid(dest, r) {
      GreedyWalkIsOptimal(p, dest, r);
      assert Walk(p, dest, Chebyshev(p, dest, r), r) == dest;
    }
    forall n: nat | Walk(p, dest, n, r) == dest ensures InGrid(dest, r) {
      WalkStaysInGrid(p, dest, n, r);
    }
  }
}
