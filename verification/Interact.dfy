/** The aim ray: the first solid cell along it, by one grid march. */
module Interact {
  import opened Dda

  const CELL_LIMIT: real := 2050000000.0

  /** The shared conversion from a coordinate to a cell: clamped, then floored. */
  function BlockCoord(v: real): int {
    (if v < -CELL_LIMIT then -CELL_LIMIT else if v > CELL_LIMIT then CELL_LIMIT else v).Floor
  }

  /** The coordinates whose clamped cell still holds them, its far face included. */
  predicate InRange(v: real) {
    -CELL_LIMIT <= v <= CELL_LIMIT + 1.0
  }

  predicate AllInRange(o: Vec) {
    InRange(o.x) && InRange(o.y) && InRange(o.z)
  }

  lemma ClampIsExact(v: real)
    ensures BlockCoord(v) == v.Floor <==> InRange(v) && v != CELL_LIMIT + 1.0
  {
    assert CELL_LIMIT.Floor == 2050000000;
    assert (-CELL_LIMIT).Floor == -2050000000;
  }

  /** The start cell holds the point it was made from exactly in range. */
  lemma StartCellHolds(v: real, d: real)
    ensures Spans(v, d, BlockCoord(v), 0.0) <==> InRange(v)
  {
    assert CELL_LIMIT.Floor == 2050000000;
    assert (-CELL_LIMIT).Floor == -2050000000;
    assert d * 0.0 == 0.0;
  }

  datatype March = Hit(block: Cell, previous: Cell) | Left(t: real) | Miss

  /** The point of the ray at length `s` lies in the closed cell. */
  ghost predicate Holds(c: Cell, ray: Ray, s: real) {
    && Spans(ray.o.x, ray.d.x, c.x, s)
    && Spans(ray.o.y, ray.d.y, c.y, s)
    && Spans(ray.o.z, ray.d.z, c.z, s)
  }

  ghost predicate HoldsFrom(c: Cell, ray: Ray, a: real, b: real) {
    forall s :: a <= s <= b ==> Holds(c, ray, s)
  }

  /** The cells share a face. */
  predicate FaceAdjacent(a: Cell, b: Cell) {
    Apart(a.x, b.x) + Apart(a.y, b.y) + Apart(a.z, b.z) == 1
  }

  /** The cells a march visited, each with the ray length at which it was entered. */
  datatype Trail = Trail(cells: seq<Cell>, times: seq<real>) {
    ghost predicate Wf() {
      && |cells| == |times| >= 1 && times[0] == 0.0
      && (forall i :: 0 <= i < |cells| - 1 ==> FaceAdjacent(cells[i], cells[i + 1]))
    }

    function Last(): Cell
      requires |cells| >= 1
    {
      cells[|cells| - 1]
    }

    function End(): real
      requires |times| >= 1
    {
      times[|times| - 1]
    }

    /** None of the first `n` cells is solid, nor, the start apart, one to stop in. */
    ghost predicate Passed(n: int, solid: Cell -> bool, leave: Cell -> bool)
      requires n <= |cells|
    {
      forall i :: 0 <= i < n ==> !solid(cells[i]) && (i > 0 ==> !leave(cells[i]))
    }

    ghost predicate Within(reach: real) {
      forall i :: 0 < i < |times| ==> times[i] <= reach
    }

    /** From each entry to the next the ray stays in the closed cell, and in the last one up to `upto`. */
    ghost predicate Follows(ray: Ray, upto: real)
      requires |cells| == |times| >= 1
    {
      && (forall i :: 0 <= i < |cells| - 1 ==> times[i] <= times[i + 1])
      && (forall i :: 0 <= i < |cells| - 1 ==> HoldsFrom(cells[i], ray, times[i], times[i + 1]))
      && HoldsFrom(Last(), ray, End(), upto)
    }
  }

  lemma PassedOn(trail: Trail, c: Cell, t: real, reach: real, solid: Cell -> bool, leave: Cell -> bool)
    requires |trail.cells| == |trail.times| >= 1
    requires trail.Passed(|trail.cells|, solid, leave) && trail.Within(reach) && t <= reach
    ensures var longer := Trail(trail.cells + [c], trail.times + [t]);
            && longer.Passed(|trail.cells|, solid, leave) && longer.Within(reach)
            && (!solid(c) && !leave(c) ==> longer.Passed(|longer.cells|, solid, leave))
  {
  }

  lemma PassedBefore(trail: Trail, solid: Cell -> bool, leave: Cell -> bool)
    requires trail.Passed(|trail.cells|, solid, leave)
    ensures trail.Passed(|trail.cells| - 1, solid, leave)
  {
  }

  /** No point of the ray up to `upto` escapes the visited cells. */
  lemma NoTunnel(trail: Trail, ray: Ray, upto: real, s: real)
    requires trail.Wf() && trail.Follows(ray, upto) && 0.0 <= s <= upto
    ensures exists i :: 0 <= i < |trail.cells| && trail.times[i] <= s && Holds(trail.cells[i], ray, s)
  {
    var i := 0;
    while i < |trail.cells| - 1 && trail.times[i + 1] < s
      invariant 0 <= i < |trail.cells| && trail.times[i] <= s
      decreases |trail.cells| - i
    {
      i := i + 1;
    }
    if i < |trail.cells| - 1 {
      assert HoldsFrom(trail.cells[i], ray, trail.times[i], trail.times[i + 1]);
    }
  }

  /** All three axes. */
  ghost predicate OnRay(ray: Ray, c: Cell, mx: Ext, my: Ext, mz: Ext, t: real) {
    && Tracks(ray.o.x, ray.d.x, c.x, mx, t)
    && Tracks(ray.o.y, ray.d.y, c.y, my, t)
    && Tracks(ray.o.z, ray.d.z, c.z, mz, t)
  }

  lemma StayOnRay(ray: Ray, c: Cell, mx: Ext, my: Ext, mz: Ext, t: real, t': real)
    requires OnRay(ray, c, mx, my, mz, t) && t <= t'
    requires Leq(Fin(t'), mx) && Leq(Fin(t'), my) && Leq(Fin(t'), mz)
    ensures OnRay(ray, c, mx, my, mz, t') && Holds(c, ray, t')
  {
    StayTracks(ray.o.x, ray.d.x, c.x, mx, t, t');
    StayTracks(ray.o.y, ray.d.y, c.y, my, t, t');
    StayTracks(ray.o.z, ray.d.z, c.z, mz, t, t');
  }

  /** Until the next crossing the ray stays in the cell. */
  lemma HoldsUntil(ray: Ray, c: Cell, mx: Ext, my: Ext, mz: Ext, t: real, upto: real)
    requires OnRay(ray, c, mx, my, mz, t)
    requires Leq(Fin(upto), mx) && Leq(Fin(upto), my) && Leq(Fin(upto), mz)
    ensures HoldsFrom(c, ray, t, upto)
  {
    forall s | t <= s <= upto ensures Holds(c, ray, s) {
      StayOnRay(ray, c, mx, my, mz, t, s);
    }
  }

  function StartCell(o: Vec): Cell {
    Cell(BlockCoord(o.x), BlockCoord(o.y), BlockCoord(o.z))
  }

  lemma StartOnRay(ray: Ray)
    requires AllInRange(ray.o)
    ensures var c := StartCell(ray.o);
            && OnRay(ray, c, Boundary(ray.o.x, c.x, ray.d.x), Boundary(ray.o.y, c.y, ray.d.y),
                     Boundary(ray.o.z, c.z, ray.d.z), 0.0)
            && HoldsFrom(c, ray, 0.0, 0.0)
  {
    var c := StartCell(ray.o);
    StartCellHolds(ray.o.x, ray.d.x);
    StartCellHolds(ray.o.y, ray.d.y);
    StartCellHolds(ray.o.z, ray.d.z);
    hide BlockCoord;
    StartTracks(ray.o.x, ray.d.x, c.x);
    StartTracks(ray.o.y, ray.d.y, c.y);
    StartTracks(ray.o.z, ray.d.z, c.z);
    HoldsThere(c, ray, 0.0);
  }

  /** A trail that follows its ray at all starts in range. */
  lemma FollowsExactly(trail: Trail, ray: Ray, upto: real)
    requires trail.Wf() && trail.cells[0] == StartCell(ray.o)
    requires AllInRange(ray.o) ==> trail.Follows(ray, upto)
    ensures 0.0 <= upto ==> (trail.Follows(ray, upto) <==> AllInRange(ray.o))
  {
    if trail.Follows(ray, upto) && 0.0 <= upto {
      assert Holds(trail.cells[0], ray, 0.0) by {
        if |trail.cells| > 1 {
          assert HoldsFrom(trail.cells[0], ray, trail.times[0], trail.times[1]);
        }
      }
      StartCellHolds(ray.o.x, ray.d.x);
      StartCellHolds(ray.o.y, ray.d.y);
      StartCellHolds(ray.o.z, ray.d.z);
    }
  }

  /** One axis after a step: crossed at `m`, or merely stayed in its cell until then. */
  predicate AxisStepped(d: real, c: int, m: Ext, c': int, m': Ext, crossed: bool) {
    if crossed then c' == c + StepOf(d) && m' == Add(m, Delta(d)) else c' == c && m' == m
  }

  /** The axis crossed has the nearest boundary, at length `t'`. */
  ghost predicate Stepped(ray: Ray, c: Cell, mx: Ext, my: Ext, mz: Ext,
                          c': Cell, mx': Ext, my': Ext, mz': Ext, axis: int, t': real) {
    && 0 <= axis < 3
    && Fin(t') == (if axis == 0 then mx else if axis == 1 then my else mz)
    && Leq(Fin(t'), mx) && Leq(Fin(t'), my) && Leq(Fin(t'), mz)
    && AxisStepped(ray.d.x, c.x, mx, c'.x, mx', axis == 0)
    && AxisStepped(ray.d.y, c.y, my, c'.y, my', axis == 1)
    && AxisStepped(ray.d.z, c.z, mz, c'.z, mz', axis == 2)
  }

  ghost predicate AllLeave(ray: Ray, c: Cell, mx: Ext, my: Ext, mz: Ext) {
    Leaves(ray.o.x, ray.d.x, c.x, mx) && Leaves(ray.o.y, ray.d.y, c.y, my) && Leaves(ray.o.z, ray.d.z, c.z, mz)
  }

  function AllRoom(ray: Ray, c: Cell, reach: real): nat {
    Room(ray.o.x, ray.d.x, c.x, reach) + Room(ray.o.y, ray.d.y, c.y, reach) + Room(ray.o.z, ray.d.z, c.z, reach)
  }

  /** A step enters a face neighbour and uses up one of the boundaries before the reach. */
  lemma StepLeaves(ray: Ray, c: Cell, mx: Ext, my: Ext, mz: Ext, c': Cell, mx': Ext, my': Ext, mz': Ext,
                   axis: int, t': real, reach: real)
    requires AllLeave(ray, c, mx, my, mz) && Stepped(ray, c, mx, my, mz, c', mx', my', mz', axis, t')
    ensures AllLeave(ray, c', mx', my', mz') && FaceAdjacent(c, c')
    ensures t' <= reach ==> AllRoom(ray, c', reach) < AllRoom(ray, c, reach)
  {
    CrossLeaves(ray.o.x, ray.d.x, c.x, mx);
    CrossLeaves(ray.o.y, ray.d.y, c.y, my);
    CrossLeaves(ray.o.z, ray.d.z, c.z, mz);
    if t' <= reach {
      if axis == 0 {
        CrossingUsesRoom(ray.o.x, ray.d.x, c.x, mx, reach);
      } else if axis == 1 {
        CrossingUsesRoom(ray.o.y, ray.d.y, c.y, my, reach);
      } else {
        CrossingUsesRoom(ray.o.z, ray.d.z, c.z, mz, reach);
      }
    }
  }

  /** A step of a ray inside its cell enters the next one at the shared boundary, having stayed in
      the old one until then. */
  lemma StepOnRay(ray: Ray, c: Cell, mx: Ext, my: Ext, mz: Ext, t: real, c': Cell, mx': Ext, my': Ext, mz': Ext,
                  axis: int, t': real)
    requires OnRay(ray, c, mx, my, mz, t) && Stepped(ray, c, mx, my, mz, c', mx', my', mz', axis, t')
    ensures OnRay(ray, c', mx', my', mz', t') && t <= t'
    ensures HoldsFrom(c, ray, t, t') && HoldsFrom(c', ray, t', t')
  {
    NotPast(ray.o.x, ray.d.x, c.x, mx, t);
    NotPast(ray.o.y, ray.d.y, c.y, my, t);
    NotPast(ray.o.z, ray.d.z, c.z, mz, t);
    hide Tracks, Delta, StepOf, AxisStepped, HoldsFrom, Spans;
    HoldsUntil(ray, c, mx, my, mz, t, t');
    StepAxis(ray.o.x, ray.d.x, c.x, mx, t, c'.x, mx', axis == 0, t');
    StepAxis(ray.o.y, ray.d.y, c.y, my, t, c'.y, my', axis == 1, t');
    StepAxis(ray.o.z, ray.d.z, c.z, mz, t, c'.z, mz', axis == 2, t');
    HoldsThere(c', ray, t');
  }

  lemma HoldsThere(c: Cell, ray: Ray, t: real)
    requires Holds(c, ray, t)
    ensures HoldsFrom(c, ray, t, t)
  {
    forall s | t <= s <= t ensures Holds(c, ray, s) {
      assert s == t;
    }
  }

  lemma StepAxis(o: real, d: real, c: int, m: Ext, t: real, c': int, m': Ext, crossed: bool, t': real)
    requires Tracks(o, d, c, m, t) && t <= t' && Leq(Fin(t'), m)
    requires AxisStepped(d, c, m, c', m', crossed) && (crossed ==> m == Fin(t'))
    ensures Tracks(o, d, c', m', t')
    ensures Spans(o, d, c', t')
  {
    if crossed {
      CrossTracks(o, d, c, m, t);
      StayTracksAt(o, d, c', m', t');
    } else {
      StayTracks(o, d, c, m, t, t');
    }
  }

  lemma NotPast(o: real, d: real, c: int, m: Ext, t: real)
    requires Tracks(o, d, c, m, t)
    ensures Leq(Fin(t), m)
  {
  }

  lemma StartAllLeave(ray: Ray, c: Cell)
    ensures AllLeave(ray, c, Boundary(ray.o.x, c.x, ray.d.x), Boundary(ray.o.y, c.y, ray.d.y),
      Boundary(ray.o.z, c.z, ray.d.z))
  {
    StartLeaves(ray.o.x, ray.d.x, c.x);
    StartLeaves(ray.o.y, ray.d.y, c.y);
    StartLeaves(ray.o.z, ray.d.z, c.z);
  }

  lemma StayTracksAt(o: real, d: real, c: int, m: Ext, t: real)
    requires Tracks(o, d, c, m, t)
    ensures Spans(o, d, c, t)
  {
    if d == 0.0 {
      assert d * t == 0.0;
    }
  }

  lemma Extended(trail: Trail, ray: Ray, c: Cell, t: real)
    requires trail.Wf() && FaceAdjacent(trail.Last(), c)
    ensures Trail(trail.cells + [c], trail.times + [t]).Wf()
    ensures trail.Follows(ray, trail.End()) && trail.End() <= t
            && HoldsFrom(trail.Last(), ray, trail.End(), t) && HoldsFrom(c, ray, t, t)
            ==> Trail(trail.cells + [c], trail.times + [t]).Follows(ray, t)
  {
  }

  /** Cross the nearest boundary, the first axis winning ties. With no boundary left, no length. */
  method Advance(ray: Ray, c: Cell, mx: Ext, my: Ext, mz: Ext)
    returns (c': Cell, mx': Ext, my': Ext, mz': Ext, t: Ext, ghost axis: int)
    ensures Leq(t, mx) && Leq(t, my) && Leq(t, mz)
    ensures (axis == 0 && t == mx) || (axis == 1 && t == my && !Leq(mx, t))
            || (axis == 2 && t == mz && !Leq(mx, t) && !Leq(my, t))
    ensures t.Fin? ==> Stepped(ray, c, mx, my, mz, c', mx', my', mz', axis, t.r)
  {
    c', mx', my', mz' := c, mx, my, mz;
    if Leq(mx, my) && Leq(mx, mz) {
      axis := 0;
      c' := c.(x := c.x + StepOf(ray.d.x));
      t := mx;
      mx' := Add(mx, Delta(ray.d.x));
    } else if Leq(my, mz) {
      axis := 1;
      c' := c.(y := c.y + StepOf(ray.d.y));
      t := my;
      my' := Add(my, Delta(ray.d.y));
    } else {
      axis := 2;
      c' := c.(z := c.z + StepOf(ray.d.z));
      t := mz;
      mz' := Add(mz, Delta(ray.d.z));
    }
  }

  /** Unit-cell traversal from `ray.o` along `ray.d`, up to `reach`: the first cell `solid` accepts,
      or the first cell `leave` rejects. */
  method RunMarch(ray: Ray, reach: real, solid: Cell -> bool, leave: Cell -> bool)
    returns (end: March, ghost trail: Trail)
    ensures trail.Wf()
    ensures trail.cells[0] == StartCell(ray.o)
    // Every visited cell but the last was open, and each was entered within the reach.
    ensures trail.Passed(|trail.cells| - 1, solid, leave) && trail.Within(reach)
    ensures end.Hit? ==>
              && end.block == trail.Last() && solid(end.block)
              && (|trail.cells| == 1 ==> end.previous == end.block)
              && (|trail.cells| > 1 ==> end.previous == trail.cells[|trail.cells| - 2] && !leave(end.block))
    ensures end.Left? ==> |trail.cells| > 1 && leave(trail.Last()) && end.t == trail.End()
    ensures end.Miss? ==> trail.Passed(|trail.cells|, solid, leave)
    // Nothing is skipped: to its end, or to the reach when it hit nothing, the ray runs in these cells,
    // if and only if it starts in range.
    ensures var upto := if end.Miss? then reach else trail.End();
            0.0 <= upto ==> (trail.Follows(ray, upto) <==> AllInRange(ray.o))
  {
    var start := StartCell(ray.o);
    trail := Trail([start], [0.0]);
    ghost var exact := AllInRange(ray.o);
    if exact {
      StartOnRay(ray);
    }
    assert trail.Within(reach) && trail.Passed(0, solid, leave);
    assert !solid(start) ==> trail.Passed(1, solid, leave);
    hide Stepped, Trail.Passed, Trail.Within, AllLeave, OnRay, Spans, HoldsFrom, Boundary, BlockCoord, AllRoom,
      FaceAdjacent, AllInRange, StartCell, Trail.Follows;
    if solid(start) {
      FollowsExactly(trail, ray, 0.0);
      return Hit(start, start), trail;
    }
    var cell := start;
    var mx := Boundary(ray.o.x, cell.x, ray.d.x);
    var my := Boundary(ray.o.y, cell.y, ray.d.y);
    var mz := Boundary(ray.o.z, cell.z, ray.d.z);
    StartAllLeave(ray, cell);
    var t := Fin(0.0);
    while Leq(t, Fin(reach))
      invariant trail.Wf() && t == Fin(trail.End()) && (t.r <= reach || |trail.cells| == 1)
      invariant trail.Last() == cell
      invariant trail.cells[0] == StartCell(ray.o)
      invariant trail.Passed(|trail.cells|, solid, leave) && trail.Within(reach)
      invariant AllLeave(ray, cell, mx, my, mz)
      invariant exact ==> OnRay(ray, cell, mx, my, mz, t.r) && trail.Follows(ray, trail.End())
      decreases AllRoom(ray, cell, reach)
    {
      var previous := cell;
      ghost var m0, m1, m2, t0 := mx, my, mz, t.r;
      ghost var axis;
      cell, mx, my, mz, t, axis := Advance(ray, cell, mx, my, mz);
      if !Leq(t, Fin(reach)) {
        PassedBefore(trail, solid, leave);
        if exact {
          HoldsUntil(ray, previous, m0, m1, m2, t0, reach);
        }
        FollowsExactly(trail, ray, reach);
        return Miss, trail;
      }
      StepLeaves(ray, previous, m0, m1, m2, cell, mx, my, mz, axis, t.r, reach);
      if exact {
        StepOnRay(ray, previous, m0, m1, m2, t0, cell, mx, my, mz, axis, t.r);
      }
      Extended(trail, ray, cell, t.r);
      PassedOn(trail, cell, t.r, reach, solid, leave);
      trail := Trail(trail.cells + [cell], trail.times + [t.r]);
      FollowsExactly(trail, ray, trail.End());
      if leave(cell) {
        return Left(t.r), trail;
      }
      if solid(cell) {
        return Hit(cell, previous), trail;
      }
    }
    PassedBefore(trail, solid, leave);
    FollowsExactly(trail, ray, reach);
    end := Miss;
  }
}
