/** Occlusion between a listener and a source: the absorption integrated along the segment, walked
    cell by cell inside the captured window only. */
module Acoustics {
  import opened Common
  import opened Dda
  import opened Raster
  import opened StepIntegral

  const BLOCK_METERS := 0.85
  const UNLOADED_ABSORPTION := 16
  const MAX_WINDOW_DIM := 96
  /** The machine epsilon of a double: 2 to the power -52. */
  const EPSILON := 1.0 / 4503599627370496.0

  datatype Cover = Open | Solid(absorption: int) | Unloaded

  datatype WindowError = SizeMismatch | OverLimit
  datatype WindowResult = Captured(window: Window) | Refused(error: WindowError)

  /** A box of cells, `size` cells each way from `origin`, stored x fastest, then y, then z. */
  datatype Window = Window(origin: Cell, size: Cell, cells: seq<Cover>) {
    ghost predicate Valid() {
      size.x >= 0 && size.y >= 0 && size.z >= 0 && |cells| == size.x * size.y * size.z
    }

    predicate Contains(c: Cell) {
      && origin.x <= c.x < origin.x + size.x
      && origin.y <= c.y < origin.y + size.y
      && origin.z <= c.z < origin.z + size.z
    }

    function Index(c: Cell): int {
      (c.x - origin.x) + (c.y - origin.y) * size.x + (c.z - origin.z) * size.x * size.y
    }

    /** The cell at a world coordinate. Outside the window it reads unloaded. */
    function CellAt(c: Cell): Cover
      requires Valid()
    {
      if Contains(c) then
        IndexInRange(this, c);
        cells[Index(c)]
      else
        Unloaded
    }
  }

  function NewWindow(origin: Cell, size: Cell, cells: seq<Cover>): (r: WindowResult)
    requires size.x >= 0 && size.y >= 0 && size.z >= 0
    ensures r.Captured? ==> r.window.Valid()
    ensures r.Captured? <==> size.x <= MAX_WINDOW_DIM && size.y <= MAX_WINDOW_DIM && size.z <= MAX_WINDOW_DIM
                             && size.x * size.y * size.z == |cells|
  {
    if size.x > MAX_WINDOW_DIM || size.y > MAX_WINDOW_DIM || size.z > MAX_WINDOW_DIM then Refused(OverLimit)
    else if size.x * size.y * size.z != |cells| then Refused(SizeMismatch)
    else Captured(Window(origin, size, cells))
  }

  /** A digit below `base` and a row below `n` make an index below `base * n`. */
  lemma Within(x: int, y: int, base: int, n: int)
    requires 0 <= x < base && 0 <= y < n
    ensures 0 <= x + y * base < base * n
  {
    RowStart(y, n, base);
    assert n * base == base * n && y * base >= 0;
  }

  lemma IndexInRange(w: Window, c: Cell)
    requires w.Valid() && w.Contains(c)
    ensures 0 <= w.Index(c) < |w.cells|
  {
    var x, y, z := c.x - w.origin.x, c.y - w.origin.y, c.z - w.origin.z;
    Within(x, y, w.size.x, w.size.y);
    Within(x + y * w.size.x, z, w.size.x * w.size.y, w.size.z);
    Layers(z, w.size.x, w.size.y);
  }

  lemma Layers(z: int, x: int, y: int)
    ensures z * x * y == z * (x * y)
  {
  }

  /** Two coordinates inside the window never share a stored cell. */
  lemma IndexInjective(w: Window, a: Cell, b: Cell)
    requires w.Valid() && w.Contains(a) && w.Contains(b) && w.Index(a) == w.Index(b)
    ensures a == b
  {
    var ax, ay, az := a.x - w.origin.x, a.y - w.origin.y, a.z - w.origin.z;
    var bx, bY, bz := b.x - w.origin.x, b.y - w.origin.y, b.z - w.origin.z;
    Within(ax, ay, w.size.x, w.size.y);
    Within(bx, bY, w.size.x, w.size.y);
    Layers(az, w.size.x, w.size.y);
    Layers(bz, w.size.x, w.size.y);
    SameDigits(ax + ay * w.size.x, az, bx + bY * w.size.x, bz, w.size.x * w.size.y);
    SameDigits(ax, ay, bx, bY, w.size.x);
  }

  lemma SameDigits(lo: int, hi: int, lo': int, hi': int, base: int)
    requires 0 <= lo < base && 0 <= lo' < base && 0 <= hi && 0 <= hi' && lo + hi * base == lo' + hi' * base
    ensures lo == lo' && hi == hi'
  {
    if hi < hi' {
      RowStart(hi, hi', base);
    } else if hi' < hi {
      RowStart(hi', hi, base);
    }
  }

  /** The window stores its cells x fastest, then y, then z; any other cell reads unloaded. */
  lemma ReadsRowMajor(w: Window, x: int, y: int, z: int)
    requires w.Valid()
    ensures var c := Cell(w.origin.x + x, w.origin.y + y, w.origin.z + z);
            if 0 <= x < w.size.x && 0 <= y < w.size.y && 0 <= z < w.size.z
            then var at := x + w.size.x * (y + w.size.y * z);
                 0 <= at < |w.cells| && w.CellAt(c) == w.cells[at]
            else w.CellAt(c) == Unloaded
  {
    var c := Cell(w.origin.x + x, w.origin.y + y, w.origin.z + z);
    if 0 <= x < w.size.x && 0 <= y < w.size.y && 0 <= z < w.size.z {
      IndexInRange(w, c);
      RowMajor(x, y, z, w.size.x, w.size.y);
    }
  }

  lemma RowMajor(x: int, y: int, z: int, w: int, h: int)
    ensures x + y * w + z * w * h == x + w * (y + h * z)
  {
    assert z * w * h == w * (h * z);
  }

  function Absorption(c: Cover): int {
    match c
    case Open => 0
    case Solid(a) => a
    case Unloaded => UNLOADED_ABSORPTION
  }

  /** The cell the ray is in at length `s`. */
  function CellOn(ray: Ray, s: real): Cell {
    Cell((ray.o.x + ray.d.x * s).Floor, (ray.o.y + ray.d.y * s).Floor, (ray.o.z + ray.d.z * s).Floor)
  }

  /** The absorption along the ray. */
  function Along(win: Window, ray: Ray): real -> int
    requires win.Valid()
  {
    s => Absorption(win.CellAt(CellOn(ray, s)))
  }

  // ----- the walk -----

  ghost predicate Walks(ray: Ray, c: Cell, mx: Ext, my: Ext, mz: Ext, t: real) {
    && Tracks(ray.o.x, ray.d.x, c.x, mx, t) && Onward(ray.o.x, ray.d.x, c.x)
    && Tracks(ray.o.y, ray.d.y, c.y, my, t) && Onward(ray.o.y, ray.d.y, c.y)
    && Tracks(ray.o.z, ray.d.z, c.z, mz, t) && Onward(ray.o.z, ray.d.z, c.z)
  }

  function Crossings(ray: Ray, c: Cell): nat {
    Apart(c.x, ray.o.x.Floor) + Apart(c.y, ray.o.y.Floor) + Apart(c.z, ray.o.z.Floor)
  }

  ghost predicate UnitDir(ray: Ray) {
    Abs(ray.d.x) <= 1.0 && Abs(ray.d.y) <= 1.0 && Abs(ray.d.z) <= 1.0
  }

  function Ceil(x: real): int {
    -((-x).Floor)
  }

  lemma CeilIs(x: real)
    ensures x <= Ceil(x) as real < x + 1.0
  {
    assert (-x).Floor as real <= -x < (-x).Floor as real + 1.0;
  }

  lemma AxisCrossings(o: real, d: real, c: int, m: Ext, t: real, len: real)
    requires Tracks(o, d, c, m, t) && Onward(o, d, c) && 0.0 <= t <= len && Abs(d) <= 1.0
    ensures Apart(c, o.Floor) <= Ceil(len) + 1
  {
    var a := Abs(d);
    assert 0.0 <= a;
    hide Tracks, Ceil, Abs;
    CrossedAtMost(o, d, c, m, t);
    CeilIs(len);
    WithinLength(a, t, len, Ceil(len) as real);
  }

  lemma WithinLength(d: real, t: real, len: real, n: real)
    requires 0.0 <= d <= 1.0 && 0.0 <= t <= len <= n
    ensures d * t <= n
  {
    ScaleDirection(d, t);
  }

  lemma ScaleDirection(d: real, t: real)
    requires 0.0 <= d <= 1.0 && 0.0 <= t
    ensures d * t <= t
  {
    assert (1.0 - d) * t >= 0.0;
  }

  /** A unit ray of length `len` crosses at most three boundaries a unit and three more. */
  lemma CrossingsBounded(ray: Ray, c: Cell, mx: Ext, my: Ext, mz: Ext, t: real, len: real)
    requires Walks(ray, c, mx, my, mz, t) && UnitDir(ray) && 0.0 <= t <= len
    ensures Crossings(ray, c) <= Ceil(len) * 3 + 3
  {
    AxisCrossings(ray.o.x, ray.d.x, c.x, mx, t, len);
    AxisCrossings(ray.o.y, ray.d.y, c.y, my, t, len);
    AxisCrossings(ray.o.z, ray.d.z, c.z, mz, t, len);
  }

  lemma StartWalks(ray: Ray)
    ensures var c := Cell(ray.o.x.Floor, ray.o.y.Floor, ray.o.z.Floor);
            && Walks(ray, c, Boundary(ray.o.x, c.x, ray.d.x), Boundary(ray.o.y, c.y, ray.d.y),
                     Boundary(ray.o.z, c.z, ray.d.z), 0.0)
            && Crossings(ray, c) == 0
  {
    StartTracks(ray.o.x, ray.d.x, ray.o.x.Floor);
    StartTracks(ray.o.y, ray.d.y, ray.o.y.Floor);
    StartTracks(ray.o.z, ray.d.z, ray.o.z.Floor);
  }

  /** Strictly before the next boundary the ray is in the current cell. */
  lemma WalksInside(ray: Ray, c: Cell, mx: Ext, my: Ext, mz: Ext, t: real, s: real)
    requires Walks(ray, c, mx, my, mz, t) && t < s
    requires (mx.Fin? ==> s < mx.r) && (my.Fin? ==> s < my.r) && (mz.Fin? ==> s < mz.r)
    ensures CellOn(ray, s) == c
  {
    hide Tracks;
    InsideTracks(ray.o.x, ray.d.x, c.x, mx, t, s);
    InsideTracks(ray.o.y, ray.d.y, c.y, my, t, s);
    InsideTracks(ray.o.z, ray.d.z, c.z, mz, t, s);
  }

  /** The stretch up to `upto`, which no boundary precedes, has the absorption of the current cell. */
  lemma StretchIsFlat(win: Window, ray: Ray, c: Cell, mx: Ext, my: Ext, mz: Ext, t: real, upto: real)
    requires win.Valid() && Walks(ray, c, mx, my, mz, t) && t <= upto
    requires Leq(Fin(upto), mx) && Leq(Fin(upto), my) && Leq(Fin(upto), mz)
    ensures Flat(Along(win, ray), Piece(t, upto, Absorption(win.CellAt(c))))
  {
    forall s | t < s < upto ensures Along(win, ray)(s) == Absorption(win.CellAt(c)) {
      WalksInside(ray, c, mx, my, mz, t, s);
    }
  }

  lemma NotBefore(ray: Ray, c: Cell, mx: Ext, my: Ext, mz: Ext, t: real)
    requires Walks(ray, c, mx, my, mz, t)
    ensures Leq(Fin(t), mx) && Leq(Fin(t), my) && Leq(Fin(t), mz)
  {
  }

  lemma CrossAxis(o: real, d: real, c: int, m: Ext, t: real)
    requires Tracks(o, d, c, m, t) && Onward(o, d, c) && m.Fin?
    ensures Tracks(o, d, c + StepOf(d), Add(m, Delta(d)), m.r) && Onward(o, d, c + StepOf(d))
    ensures Apart(c + StepOf(d), o.Floor) == Apart(c, o.Floor) + 1
  {
    CrossTracks(o, d, c, m, t);
  }

  lemma StayAxis(o: real, d: real, c: int, m: Ext, t: real, t': real)
    requires Tracks(o, d, c, m, t) && Onward(o, d, c) && t <= t' && Leq(Fin(t'), m)
    ensures Tracks(o, d, c, m, t') && Onward(o, d, c)
  {
    StayTracks(o, d, c, m, t, t');
  }

  /** Cross the nearest boundary of a walk, the first axis winning ties. */
  method Cross(ray: Ray, c: Cell, mx: Ext, my: Ext, mz: Ext, ghost t: real, axis: int)
    returns (c': Cell, mx': Ext, my': Ext, mz': Ext)
    requires Walks(ray, c, mx, my, mz, t) && 0 <= axis < 3
    requires axis == Nearest(mx, my, mz) && Pick(axis, mx, my, mz).Fin?
    ensures Walks(ray, c', mx', my', mz', Pick(axis, mx, my, mz).r)
    ensures Crossings(ray, c') == Crossings(ray, c) + 1
  {
    c', mx', my', mz' := c, mx, my, mz;
    NotBefore(ray, c, mx, my, mz, t);
    hide Tracks, Onward, Delta, StepOf, Apart;
    if axis == 0 {
      CrossAxis(ray.o.x, ray.d.x, c.x, mx, t);
      StayAxis(ray.o.y, ray.d.y, c.y, my, t, mx.r);
      StayAxis(ray.o.z, ray.d.z, c.z, mz, t, mx.r);
      c', mx' := c.(x := c.x + StepOf(ray.d.x)), Add(mx, Delta(ray.d.x));
    } else if axis == 1 {
      StayAxis(ray.o.x, ray.d.x, c.x, mx, t, my.r);
      CrossAxis(ray.o.y, ray.d.y, c.y, my, t);
      StayAxis(ray.o.z, ray.d.z, c.z, mz, t, my.r);
      c', my' := c.(y := c.y + StepOf(ray.d.y)), Add(my, Delta(ray.d.y));
    } else {
      StayAxis(ray.o.x, ray.d.x, c.x, mx, t, mz.r);
      StayAxis(ray.o.y, ray.d.y, c.y, my, t, mz.r);
      CrossAxis(ray.o.z, ray.d.z, c.z, mz, t);
      c', mz' := c.(z := c.z + StepOf(ray.d.z)), Add(mz, Delta(ray.d.z));
    }
  }

  /** From `occ` on, absorption over blocks adding up to `sum` was charged, in full-absorption metres. */
  ghost predicate Charged(total: real, occ: real, sum: real) {
    total == occ + sum * BLOCK_METERS / 255.0
  }

  function Pick(axis: int, mx: Ext, my: Ext, mz: Ext): Ext {
    if axis == 0 then mx else if axis == 1 then my else mz
  }

  /** The axis whose boundary comes first, the first axis winning ties. */
  function Nearest(mx: Ext, my: Ext, mz: Ext): (axis: int)
    ensures 0 <= axis < 3
    ensures Leq(Pick(axis, mx, my, mz), mx) && Leq(Pick(axis, mx, my, mz), my) && Leq(Pick(axis, mx, my, mz), mz)
  {
    if Leq(mx, my) && Leq(mx, mz) then 0 else if Leq(my, mz) then 1 else 2
  }

  /** The cuts so far and the stretch in the current cell. */
  lemma LongerCuts(win: Window, ray: Ray, cuts: seq<Piece>, c: Cell, mx: Ext, my: Ext, mz: Ext, t: real, upto: real)
    requires win.Valid() && Walks(ray, c, mx, my, mz, t) && t <= upto
      && Leq(Fin(upto), Pick(Nearest(mx, my, mz), mx, my, mz))
    requires Cuts(Along(win, ray), cuts, 0.0, t)
    ensures var p := Piece(t, upto, Absorption(win.CellAt(c)));
            && Cuts(Along(win, ray), cuts + [p], 0.0, upto)
            && Sum(cuts + [p]) == Sum(cuts) + Weight(p)
  {
    var p := Piece(t, upto, Absorption(win.CellAt(c)));
    StretchIsFlat(win, ray, c, mx, my, mz, t, upto);
    CutsOne(Along(win, ray), p);
    CutsJoin(Along(win, ray), cuts, [p], 0.0, t, upto);
  }

  /** Charge every cell the ray runs through up to `len`, starting from `occ`. The iteration cap is
      never what ends the loop: it leaves by its break, with the whole length charged. */
  method Charge(win: Window, ray: Ray, len: real, occ: real) returns (total: real, ghost cuts: seq<Piece>)
    requires win.Valid() && UnitDir(ray) && len > 0.0
    ensures Cuts(Along(win, ray), cuts, 0.0, len)
    ensures Charged(total, occ, Sum(cuts))
    // However else the stretch is cut, the charge is the same.
    ensures forall ps :: Cuts(Along(win, ray), ps, 0.0, len) ==> Charged(total, occ, Sum(ps))
  {
    var cell := Cell(ray.o.x.Floor, ray.o.y.Floor, ray.o.z.Floor);
    var mx := Boundary(ray.o.x, cell.x, ray.d.x);
    var my := Boundary(ray.o.y, cell.y, ray.d.y);
    var mz := Boundary(ray.o.z, cell.z, ray.d.z);
    StartWalks(ray);
    ghost var f := Along(win, ray);
    assert Charged(occ, occ, 0.0);
    hide Weight, Nearest, Pick, Along, Walks, Boundary, Crossings, UnitDir, Cuts, Sum, Flat, Charged, Ceil,
      Absorption, Window.CellAt, Window.Valid;
    total := occ;
    cuts := [];
    assert Cuts(f, cuts, 0.0, 0.0) && Sum(cuts) == 0.0 by { EmptyCuts(f); }
    var t := 0.0;
    var cap := Ceil(len) * 3 + 16;
    assert cap >= 16 by { CeilIs(len); }
    var i := 0;
    while i < cap
      invariant Walks(ray, cell, mx, my, mz, t) && 0.0 <= t <= len
      invariant Cuts(f, cuts, 0.0, t) && Charged(total, occ, Sum(cuts))
      invariant i == Crossings(ray, cell) < cap
    {
      var axis := Nearest(mx, my, mz);
      var m := Pick(axis, mx, my, mz);
      var segEnd := if Leq(Fin(len), m) then len else m.r;
      NotBefore(ray, cell, mx, my, mz, t);
      LongerCuts(win, ray, cuts, cell, mx, my, mz, t, segEnd);
      var p := Piece(t, segEnd, Absorption(win.CellAt(cell)));
      total := ChargeCell(p, total, occ, Sum(cuts));
      cuts := cuts + [p];
      if Leq(Fin(len), m) {
        break;
      }
      cell, mx, my, mz := Cross(ray, cell, mx, my, mz, t, axis);
      t := m.r;
      CrossingsBounded(ray, cell, mx, my, mz, t, len);
      i := i + 1;
    }
    EveryCut(f, cuts, len, total, occ);
  }

  lemma EveryCut(f: real -> int, cuts: seq<Piece>, len: real, total: real, occ: real)
    requires Cuts(f, cuts, 0.0, len) && Charged(total, occ, Sum(cuts))
    ensures forall ps :: Cuts(f, ps, 0.0, len) ==> Charged(total, occ, Sum(ps))
  {
    forall ps | Cuts(f, ps, 0.0, len) ensures Charged(total, occ, Sum(ps)) {
      CutsAgree(f, cuts, ps, 0.0, len);
    }
  }

  lemma EmptyCuts(f: real -> int)
    ensures Cuts(f, [], 0.0, 0.0) && Sum([]) == 0.0
  {
  }

  method ChargeCell(p: Piece, total: real, ghost occ: real, ghost sum: real) returns (total': real)
    requires p.from <= p.to && Charged(total, occ, sum)
    ensures Charged(total', occ, sum + Weight(p))
  {
    total' := total;
    var thickness := p.to - p.from;
    if thickness > 0.0 {
      total' := total + p.value as real * thickness * BLOCK_METERS / 255.0;
    } else {
      assert thickness == 0.0 && Weight(p) == 0.0;
    }
    assert total' == total + Weight(p) * BLOCK_METERS / 255.0;
  }

  // ----- clipping to the window -----

  /** One axis of the window box at ray length `s`. */
  predicate InAxis(f: real, d: real, lo: int, hi: int, s: real) {
    lo <= (f + d * s).Floor < hi
  }

  lemma FloorAtLeast(p: real, n: int)
    ensures p.Floor >= n <==> p >= n as real
  {
    assert p.Floor as real <= p < p.Floor as real + 1.0;
  }

  lemma Between(d: real, n: real, t: real, s: real)
    requires d != 0.0 && t == n / d
    ensures d > 0.0 ==> (s < t <==> d * s < n) && (s > t <==> d * s > n)
    ensures d < 0.0 ==> (s < t <==> d * s > n) && (s > t <==> d * s < n)
  {
    DivMul(n, d);
    Scale(d, s, t);
    Scale(d, t, s);
  }

  /** Clip the range to one axis of the box, by the slab test. */
  method Slab(f: real, d: real, lo: int, hi: int, t0: real, t1: real) returns (n0: real, n1: real)
    requires lo <= hi
    ensures n0 >= t0 && (n1 <= t1 || n1 < 0.0)
    ensures forall s :: s > 0.0 && n0 < s < n1 ==> t0 < s < t1 && InAxis(f, d, lo, hi, s)
    ensures forall s :: s > 0.0 && (s < n0 || s > n1) ==> s < t0 || s > t1 || !InAxis(f, d, lo, hi, s)
  {
    n0, n1 := t0, t1;
    if d == 0.0 {
      if f < lo as real || f >= hi as real {
        n1 := -1.0;
      }
      forall s | true ensures InAxis(f, d, lo, hi, s) <==> lo as real <= f < hi as real {
        assert d * s == 0.0;
        FloorAtLeast(f, lo);
        FloorAtLeast(f, hi);
      }
    } else {
      var ta, tb := (lo as real - f) / d, (hi as real - f) / d;
      var near, far := if ta < tb then ta else tb, if ta < tb then tb else ta;
      n0 := if t0 > near then t0 else near;
      n1 := if t1 < far then t1 else far;
      forall s | true
        ensures near < s < far ==> InAxis(f, d, lo, hi, s)
        ensures s < near || s > far ==> !InAxis(f, d, lo, hi, s)
      {
        Between(d, lo as real - f, ta, s);
        Between(d, hi as real - f, tb, s);
        FloorAtLeast(f + d * s, lo);
        FloorAtLeast(f + d * s, hi);
      }
    }
  }

  /** The unit ray from `from` to `to`, `len` apart. */
  function Segment(from: Vec, to: Vec, len: real): Ray
    requires len > 0.0
  {
    Ray(from, Vec((to.x - from.x) / len, (to.y - from.y) / len, (to.z - from.z) / len))
  }

  ghost predicate IsLength(from: Vec, to: Vec, len: real) {
    && len >= 0.0
    && len * len == (to.x - from.x) * (to.x - from.x) + (to.y - from.y) * (to.y - from.y)
      + (to.z - from.z) * (to.z - from.z)
  }

  lemma SideWithinLength(side: real, other: real, len: real)
    requires len > 0.0 && other >= 0.0 && len * len == side * side + other
    ensures Abs(side / len) <= 1.0
  {
    DivMul(side, len);
    var q := side / len;
    if q > 1.0 {
      Scale(len, 1.0, q);
      LongerSquare(len, side);
    } else if q < -1.0 {
      Scale(len, q, -1.0);
      LongerSquare(len, -side);
      assert false;
    }
  }

  lemma LongerSquare(len: real, a: real)
    requires a > len > 0.0
    ensures a * a > len * len
  {
    Scale(a, len, a);
    Scale(len, len, a);
  }

  lemma SegmentIsUnit(from: Vec, to: Vec, len: real)
    requires len > 0.0 && IsLength(from, to, len)
    ensures UnitDir(Segment(from, to, len))
  {
    var x, y, z := to.x - from.x, to.y - from.y, to.z - from.z;
    Square(x);
    Square(y);
    Square(z);
    SideWithinLength(x, y * y + z * z, len);
    SideWithinLength(y, x * x + z * z, len);
    SideWithinLength(z, x * x + y * y, len);
  }

  lemma Square(x: real)
    ensures x * x >= 0.0
  {
  }

  ghost predicate InBox(win: Window, ray: Ray, s: real) {
    && InAxis(ray.o.x, ray.d.x, win.origin.x, win.origin.x + win.size.x, s)
    && InAxis(ray.o.y, ray.d.y, win.origin.y, win.origin.y + win.size.y, s)
    && InAxis(ray.o.z, ray.d.z, win.origin.z, win.origin.z + win.size.z, s)
  }

  /** Outside the box everything reads unloaded. */
  lemma OutsideIsUnloaded(win: Window, ray: Ray, a: real, b: real)
    requires win.Valid() && a <= b && forall s :: a < s < b ==> !InBox(win, ray, s)
    ensures Flat(Along(win, ray), Piece(a, b, UNLOADED_ABSORPTION))
  {
    hide InBox, Along;
    forall s | a < s < b ensures Along(win, ray)(s) == UNLOADED_ABSORPTION {
      assert !InBox(win, ray, s);
      NotContained(win, ray, s);
    }
  }

  lemma NotContained(win: Window, ray: Ray, s: real)
    requires win.Valid()
    ensures InBox(win, ray, s) <==> win.Contains(CellOn(ray, s))
    ensures !InBox(win, ray, s) ==> Along(win, ray)(s) == UNLOADED_ABSORPTION
  {
  }

  /** The point at length `s` of the clipped ray is the one at `t0 + s` of the whole ray. */
  lemma ClippedRay(win: Window, ray: Ray, t0: real)
    requires win.Valid()
    ensures var clipped := Ray(PointOn(ray, t0), ray.d);
            forall s :: Along(win, ray)(s + t0) == Along(win, clipped)(s)
  {
    var clipped := Ray(PointOn(ray, t0), ray.d);
    forall s | true ensures Along(win, ray)(s + t0) == Along(win, clipped)(s) {
      SameCell(ray, t0, s);
      hide CellOn, PointOn;
    }
  }

  lemma SameCell(ray: Ray, t0: real, s: real)
    ensures CellOn(ray, s + t0) == CellOn(Ray(PointOn(ray, t0), ray.d), s)
  {
    SameFloor(ray.o.x, ray.d.x, t0, s);
    SameFloor(ray.o.y, ray.d.y, t0, s);
    SameFloor(ray.o.z, ray.d.z, t0, s);
  }

  lemma SameFloor(o: real, d: real, t0: real, s: real)
    ensures (o + d * t0 + d * s).Floor == (o + d * (s + t0)).Floor
  {
  }

  function PointOn(ray: Ray, s: real): Vec {
    Vec(ray.o.x + ray.d.x * s, ray.o.y + ray.d.y * s, ray.o.z + ray.d.z * s)
  }

  /** A segment that never enters the box, but perhaps touches it in one point. */
  lemma AllOutside(win: Window, ray: Ray, m: real, len: real) returns (cuts: seq<Piece>)
    requires win.Valid() && 0.0 <= m <= len
    requires forall s :: 0.0 < s < len && s != m ==> !InBox(win, ray, s)
    ensures Cuts(Along(win, ray), cuts, 0.0, len) && Sum(cuts) == 16.0 * len
  {
    var f := Along(win, ray);
    var p, q := Piece(0.0, m, UNLOADED_ABSORPTION), Piece(m, len, UNLOADED_ABSORPTION);
    OutsideIsUnloaded(win, ray, 0.0, m);
    OutsideIsUnloaded(win, ray, m, len);
    CutsOne(f, p);
    CutsOne(f, q);
    CutsJoin(f, [p], [q], 0.0, m, len);
    cuts := [p] + [q];
  }

  /** The stretches before and after the box around the cuts of the stretch inside. */
  lemma AroundBox(win: Window, ray: Ray, t0: real, t1: real, len: real, inner: seq<Piece>) returns (cuts: seq<Piece>)
    requires win.Valid() && 0.0 <= t0 < t1 <= len
    requires forall s :: 0.0 < s < len && (s < t0 || s > t1) ==> !InBox(win, ray, s)
    requires Cuts(Along(win, Ray(PointOn(ray, t0), ray.d)), inner, 0.0, t1 - t0)
    ensures Cuts(Along(win, ray), cuts, 0.0, len)
    ensures Sum(cuts) == 16.0 * (t0 + (len - t1)) + Sum(inner)
  {
    var f := Along(win, ray);
    var clipped := Ray(PointOn(ray, t0), ray.d);
    var p, q := Piece(0.0, t0, UNLOADED_ABSORPTION), Piece(t1, len, UNLOADED_ABSORPTION);
    OutsideIsUnloaded(win, ray, 0.0, t0);
    OutsideIsUnloaded(win, ray, t1, len);
    CutsOne(f, p);
    CutsOne(f, q);
    ClippedRay(win, ray, t0);
    CutsShift(Along(win, clipped), f, inner, 0.0, t1 - t0, t0);
    var mid := Shifted(inner, t0);
    CutsJoin(f, [p], mid, 0.0, t0, t1);
    CutsJoin(f, [p] + mid, [q], 0.0, t1, len);
    cuts := [p] + mid + [q];
  }

  /** Distance and occlusion from `from` to `to`. Only the stretch inside the window is walked, the
      rest is charged in closed form; the result is the absorption integrated along the segment. */
  method Trace(win: Window, from: Vec, to: Vec, len: real, lenPhysical: real)
    returns (distance: real, occlusion: real, ghost cuts: seq<Piece>)
    requires win.Valid() && IsLength(from, to, len)
    ensures distance == lenPhysical * BLOCK_METERS
    ensures len <= EPSILON ==> occlusion == 0.0
    ensures len > EPSILON ==>
              && Cuts(Along(win, Segment(from, to, len)), cuts, 0.0, len)
              && Charged(occlusion, 0.0, Sum(cuts))
  {
    distance := lenPhysical * BLOCK_METERS;
    cuts := [];
    if len <= EPSILON {
      return distance, 0.0, [];
    }
    var ray := Segment(from, to, len);
    SegmentIsUnit(from, to, len);
    var lo, size := win.origin, win.size;
    var t0, t1 := 0.0, len;
    t0, t1 := Slab(ray.o.x, ray.d.x, lo.x, lo.x + size.x, t0, t1);
    t0, t1 := Slab(ray.o.y, ray.d.y, lo.y, lo.y + size.y, t0, t1);
    t0, t1 := Slab(ray.o.z, ray.d.z, lo.z, lo.z + size.z, t0, t1);
    assert t0 >= 0.0 && t1 <= len;
    assert forall s :: 0.0 < s < len && (s < t0 || s > t1) ==> !InBox(win, ray, s);
    hide InBox, Segment, UnitDir, IsLength, Along, Cuts, Sum;
    var unloaded := UNLOADED_ABSORPTION as real * BLOCK_METERS / 255.0;
    if t1 <= t0 {
      cuts := AllOutside(win, ray, if t0 < len then t0 else len, len);
      occlusion := len * unloaded;
      return;
    }
    var outside := t0 + (len - t1);
    var inner;
    ghost var walked;
    inner, walked := Charge(win, Ray(PointOn(ray, t0), ray.d), t1 - t0, outside * unloaded);
    occlusion := inner;
    cuts := AroundBox(win, ray, t0, t1, len, walked);
  }

  /** Where every cell along the segment is alike, the occlusion is that cover's own, over the whole length:
      none for open cells, a solid's absorption, 16 for unloaded. */
  lemma UniformAbsorbs(win: Window, ray: Ray, len: real, cover: Cover, cuts: seq<Piece>)
    requires win.Valid() && len >= 0.0 && Cuts(Along(win, ray), cuts, 0.0, len)
    requires forall s :: 0.0 < s < len ==> win.CellAt(CellOn(ray, s)) == cover
    ensures var absorbed := match cover case Open => 0 case Solid(a) => a case Unloaded => 16;
            Sum(cuts) == absorbed as real * len
  {
    var p := Piece(0.0, len, Absorption(cover));
    assert Flat(Along(win, ray), p);
    CutsOne(Along(win, ray), p);
    CutsAgree(Along(win, ray), cuts, [p], 0.0, len);
  }

  /** Clipping changes nothing: the cell-by-cell walk of the whole segment charges the same. */
  method TraceUnclipped(win: Window, from: Vec, to: Vec, len: real) returns (clipped: real, walked: real)
    requires win.Valid() && IsLength(from, to, len) && len > EPSILON
    ensures clipped == walked
  {
    SegmentIsUnit(from, to, len);
    var _, occlusion, cuts := Trace(win, from, to, len, len);
    var total, whole := Charge(win, Segment(from, to, len), len, 0.0);
    CutsAgree(Along(win, Segment(from, to, len)), cuts, whole, 0.0, len);
    return occlusion, total;
  }
}
