/** Amanatides-Woo grid traversal over the reals: what its per-axis counters mean. */
module Dda {

  /** A ray length, or no crossing at all. */
  datatype Ext = Fin(r: real) | Inf

  predicate Leq(a: Ext, b: Ext) {
    b.Inf? || (a.Fin? && a.r <= b.r)
  }

  function Add(a: Ext, b: Ext): Ext {
    if a.Fin? && b.Fin? then Fin(a.r + b.r) else Inf
  }

  datatype Vec = Vec(x: real, y: real, z: real)
  datatype Cell = Cell(x: int, y: int, z: int)
  datatype Ray = Ray(o: Vec, d: Vec)

  function Abs(x: real): real {
    if x < 0.0 then -x else x
  }

  function StepOf(d: real): int {
    if d > 0.0 then 1 else if d < 0.0 then -1 else 0
  }

  /** Ray length from coordinate `o` to the first boundary of `cell`. */
  function Boundary(o: real, cell: int, d: real): Ext {
    if d == 0.0 then Inf
    else if d > 0.0 then Fin((cell as real + 1.0 - o) / d)
    else Fin((o - cell as real) / -d)
  }

  /** Ray length between successive boundaries. */
  function Delta(d: real): Ext {
    if d == 0.0 then Inf else Fin(1.0 / Abs(d))
  }

  /** On one axis: at ray length `s` the point lies in the closed cell `c`. */
  ghost predicate Spans(o: real, d: real, c: int, s: real) {
    c as real <= o + d * s <= c as real + 1.0
  }

  /** On one axis: at ray length `t` the point lies in the closed cell `c`, which it leaves at `m`. */
  ghost predicate Tracks(o: real, d: real, c: int, m: Ext, t: real) {
    if d == 0.0 then
      m.Inf? && Spans(o, 0.0, c, 0.0)
    else
      && m.Fin? && t <= m.r
      && d * m.r == (if d > 0.0 then c as real + 1.0 - o else c as real - o)
      && Spans(o, d, c, t)
  }

  lemma ScaleUp(d: real, a: real, b: real)
    requires d > 0.0
    ensures a <= b ==> d * a <= d * b
    ensures a < b ==> d * a < d * b
  {
  }

  lemma ScaleDown(d: real, a: real, b: real)
    requires d < 0.0
    ensures a <= b ==> d * a >= d * b
    ensures a < b ==> d * a > d * b
  {
    ScaleUp(-d, a, b);
  }

  lemma Scale(d: real, a: real, b: real)
    ensures a <= b && d >= 0.0 ==> d * a <= d * b
    ensures a <= b && d <= 0.0 ==> d * a >= d * b
    ensures a < b && d > 0.0 ==> d * a < d * b
    ensures a < b && d < 0.0 ==> d * a > d * b
  {
    if d > 0.0 {
      ScaleUp(d, a, b);
    } else if d < 0.0 {
      ScaleDown(d, a, b);
    }
  }

  lemma DivMul(n: real, d: real)
    requires d != 0.0
    ensures d * (n / d) == n
  {
  }

  /** A start cell whose closed span holds the origin is tracked from the start. */
  lemma StartTracks(o: real, d: real, c: int)
    requires Spans(o, d, c, 0.0)
    ensures Tracks(o, d, c, Boundary(o, c, d), 0.0)
  {
    assert d * 0.0 == 0.0;
    if d > 0.0 {
      DivMul(c as real + 1.0 - o, d);
      Scale(d, (c as real + 1.0 - o) / d, 0.0);
    } else if d < 0.0 {
      DivMul(o - c as real, -d);
      var m := (o - c as real) / -d;
      assert d * m == -(-d * m);
      Scale(-d, m, 0.0);
    }
  }

  /** Up to the next crossing the point stays in the closed cell. */
  lemma StayTracks(o: real, d: real, c: int, m: Ext, t: real, t': real)
    requires Tracks(o, d, c, m, t) && t <= t' && Leq(Fin(t'), m)
    ensures Tracks(o, d, c, m, t')
    ensures Spans(o, d, c, t')
  {
    if m.Fin? {
      Scale(d, t, t');
      Scale(d, t', m.r);
    } else {
      assert d * t' == 0.0;
    }
  }

  /** Strictly between two crossings it lies in the cell itself. */
  lemma InsideTracks(o: real, d: real, c: int, m: Ext, t: real, s: real)
    requires Tracks(o, d, c, m, t) && t < s && (m.Fin? ==> s < m.r) && (d == 0.0 ==> c == o.Floor)
    ensures (o + d * s).Floor == c
  {
    if m.Fin? {
      Inside(o, d, c, m.r, t, s);
    } else {
      assert d * s == 0.0;
    }
  }

  lemma Inside(o: real, d: real, c: int, m: real, t: real, s: real)
    requires d != 0.0 && t < s < m && Spans(o, d, c, t)
    requires d * m == (if d > 0.0 then c as real + 1.0 - o else c as real - o)
    ensures c as real <= o + d * s < c as real + 1.0
  {
    if d > 0.0 {
      ScaleUp(d, t, s);
      ScaleUp(d, s, m);
    } else {
      ScaleDown(d, t, s);
      ScaleDown(d, s, m);
    }
  }

  /** The crossing `m` of one axis is where the ray leaves cell `c`, wherever the ray is now. */
  ghost predicate Leaves(o: real, d: real, c: int, m: Ext) {
    if d == 0.0 then m.Inf?
    else m.Fin? && d * m.r == (if d > 0.0 then c as real + 1.0 - o else c as real - o)
  }

  lemma StartLeaves(o: real, d: real, c: int)
    ensures Leaves(o, d, c, Boundary(o, c, d))
  {
    if d > 0.0 {
      DivMul(c as real + 1.0 - o, d);
    } else if d < 0.0 {
      DivMul(o - c as real, -d);
      var m := (o - c as real) / -d;
      assert d * m == -(-d * m);
    }
  }

  lemma CrossLeaves(o: real, d: real, c: int, m: Ext)
    requires Leaves(o, d, c, m)
    ensures Leaves(o, d, c + StepOf(d), Add(m, Delta(d)))
  {
    if d != 0.0 {
      DivMul(1.0, Abs(d));
      var e := 1.0 / Abs(d);
      assert d * (m.r + e) == d * m.r + d * e;
      assert d < 0.0 ==> d * e == -(Abs(d) * e);
    }
  }

  /** Crossing: the neighbour on this axis, up to its own far boundary. */
  lemma CrossTracks(o: real, d: real, c: int, m: Ext, t: real)
    requires Tracks(o, d, c, m, t) && m.Fin?
    ensures Tracks(o, d, c + StepOf(d), Add(m, Delta(d)), m.r)
  {
    CrossLeaves(o, d, c, m);
    assert 1.0 / Abs(d) > 0.0;
  }

  /** How many boundaries of one axis lie ahead of cell `c` and before length `len`. */
  function Room(o: real, d: real, c: int, len: real): nat {
    var last := (o + d * len).Floor;
    if d > 0.0 && c < last + 1 then last + 1 - c
    else if d < 0.0 && c > last - 1 then c - last + 1
    else 0
  }

  /** Crossing a boundary within `len` uses one of them up. */
  lemma CrossingUsesRoom(o: real, d: real, c: int, m: Ext, len: real)
    requires Leaves(o, d, c, m) && m.Fin? && m.r <= len
    ensures Room(o, d, c + StepOf(d), len) < Room(o, d, c, len)
  {
    var last := (o + d * len).Floor;
    assert last as real <= o + d * len < last as real + 1.0;
    if d != 0.0 {
      Beyond(o, d, c, m.r, len);
      assert d > 0.0 ==> c + 1 <= last;
      assert d < 0.0 ==> c >= last;
    }
  }

  /** At `len` the axis is past the boundary it crossed at `m`. */
  lemma Beyond(o: real, d: real, c: int, m: real, len: real)
    requires d != 0.0 && m <= len && d * m == (if d > 0.0 then c as real + 1.0 - o else c as real - o)
    ensures d > 0.0 ==> c as real + 1.0 <= o + d * len
    ensures d < 0.0 ==> c as real >= o + d * len
  {
    if d > 0.0 {
      ScaleUp(d, m, len);
    } else {
      ScaleDown(d, m, len);
    }
  }

  function Apart(a: int, b: int): nat {
    if a < b then b - a else a - b
  }

  /** The cell lies on the side of the start that the ray goes to. */
  predicate Onward(o: real, d: real, c: int) {
    (d > 0.0 ==> c >= o.Floor) && (d < 0.0 ==> c <= o.Floor) && (d == 0.0 ==> c == o.Floor)
  }

  /** By length `t` an axis has crossed at most as many boundaries as it has moved, and one. */
  lemma CrossedAtMost(o: real, d: real, c: int, m: Ext, t: real)
    requires Tracks(o, d, c, m, t) && Onward(o, d, c) && 0.0 <= t
    ensures Apart(c, o.Floor) as real <= Abs(d) * t + 1.0
  {
    var f := o.Floor;
    assert f as real <= o < f as real + 1.0;
    if d == 0.0 {
      assert Abs(d) * t == 0.0;
    } else {
      assert d > 0.0 ==> d * t == Abs(d) * t;
      assert d < 0.0 ==> d * t == -(Abs(d) * t);
    }
  }
}
