/** Chunk-space boxes: their enumeration by an odometer, and their difference by skipped spans. */
module Coord {
  import opened Common

  const CHUNK_SIZE := 16

  datatype Triple = Triple(x: int, y: int, z: int) {
    function At(axis: int): int {
      if axis == 0 then x else if axis == 1 then y else z
    }

    function With(axis: int, v: int): Triple {
      if axis == 0 then this.(x := v) else if axis == 1 then this.(y := v) else this.(z := v)
    }
  }

  type BlockCoord = Triple
  type ChunkCoord = Triple

  /** A chunk and the place of a block in it. */
  function Split(b: BlockCoord): (r: (ChunkCoord, Triple))
    ensures 0 <= r.1.x < CHUNK_SIZE && 0 <= r.1.y < CHUNK_SIZE && 0 <= r.1.z < CHUNK_SIZE
  {
    (Triple(b.x / CHUNK_SIZE, b.y / CHUNK_SIZE, b.z / CHUNK_SIZE),
     Triple(b.x % CHUNK_SIZE, b.y % CHUNK_SIZE, b.z % CHUNK_SIZE))
  }

  function Join(c: ChunkCoord, l: Triple): BlockCoord {
    Triple(c.x * CHUNK_SIZE + l.x, c.y * CHUNK_SIZE + l.y, c.z * CHUNK_SIZE + l.z)
  }

  lemma SplitJoin(b: BlockCoord, c: ChunkCoord, l: Triple)
    ensures Join(Split(b).0, Split(b).1) == b
    ensures 0 <= l.x < CHUNK_SIZE && 0 <= l.y < CHUNK_SIZE && 0 <= l.z < CHUNK_SIZE ==> Split(Join(c, l)) == (c, l)
  {
  }

  datatype Face = NegX | PosX | NegZ | PosZ | NegY | PosY {
    function Axis(): int {
      match this
      case NegX | PosX => 0
      case NegY | PosY => 1
      case NegZ | PosZ => 2
    }

    function Sign(): int {
      if PosX? || PosY? || PosZ? then 1 else -1
    }
  }

  /** Outer, middle and inner axes of an enumeration: the up axis is innermost. */
  datatype Order = Order(outer: int, mid: int, inner: int) {
    ghost predicate Valid() {
      && 0 <= outer < 3 && 0 <= mid < 3 && 0 <= inner < 3
      && outer != mid && mid != inner && outer != inner
    }
  }

  function AxisOrder(up: Option<Face>): (o: Order)
    ensures o.Valid() && o.outer < o.mid
    ensures o.inner == match up case None => 1 case Some(f) => f.Axis()
  {
    match up
    case Some(f) => if f.Axis() == 0 then Order(1, 2, 0) else if f.Axis() == 2 then Order(0, 1, 2) else Order(0, 2, 1)
    case None => Order(0, 2, 1)
  }

  datatype ChunkBox = ChunkBox(lo: Triple, hi: Triple, up: Option<Face>) {
    predicate Contains(c: ChunkCoord) {
      lo.x <= c.x <= hi.x && lo.y <= c.y <= hi.y && lo.z <= c.z <= hi.z
    }

    predicate Meets(other: ChunkBox) {
      && lo.x <= other.hi.x && other.lo.x <= hi.x
      && lo.y <= other.hi.y && other.lo.y <= hi.y
      && lo.z <= other.hi.z && other.lo.z <= hi.z
    }

    predicate NonEmpty() {
      lo.x <= hi.x && lo.y <= hi.y && lo.z <= hi.z
    }

    function Size(axis: int): int {
      hi.At(axis) - lo.At(axis) + 1
    }

    /** Grown `below` and `above` layers along `up`'s normal. */
    function Stretched(below: int, above: int): ChunkBox {
      match up
      case None => this
      case Some(f) =>
        var a := f.Axis();
        var (neg, pos) := if f.Sign() > 0 then (below, above) else (above, below);
        ChunkBox(lo.With(a, lo.At(a) - neg), hi.With(a, hi.At(a) + pos), up)
    }
  }

  function WithUp(center: ChunkCoord, rh: int, rv: int, up: Option<Face>): ChunkBox {
    var r := match up case None => Triple(rh, rh, rh) case Some(f) => Triple(rh, rh, rh).With(f.Axis(), rv);
    ChunkBox(Triple(center.x - r.x, center.y - r.y, center.z - r.z),
             Triple(center.x + r.x, center.y + r.y, center.z + r.z), up)
  }

  /** A stretched box is `rh` around its centre, and along `up` from `rv + below` under it to `rv + above` over it. */
  lemma StretchedHolds(center: ChunkCoord, rh: int, rv: int, f: Face, below: int, above: int, c: ChunkCoord)
    ensures WithUp(center, rh, rv, Some(f)).Stretched(below, above).Contains(c) <==>
      && -(rv + below) <= f.Sign() * (c.At(f.Axis()) - center.At(f.Axis())) <= rv + above
      && forall b :: 0 <= b < 3 && b != f.Axis() ==> -rh <= c.At(b) - center.At(b) <= rh
  {
    assert c.At(0) == c.x && c.At(1) == c.y && c.At(2) == c.z;
  }

  /** A box without an up is a cube, and does not stretch. */
  lemma CubeHolds(center: ChunkCoord, rh: int, rv: int, below: int, above: int, c: ChunkCoord)
    ensures WithUp(center, rh, rv, None).Stretched(below, above).Contains(c) <==>
      forall b :: 0 <= b < 3 ==> -rh <= c.At(b) - center.At(b) <= rh
  {
    assert c.At(0) == c.x && c.At(1) == c.y && c.At(2) == c.z;
  }

  /** Non-empty boxes meet exactly when some chunk lies in both. */
  lemma MeetsIsSharing(a: ChunkBox, b: ChunkBox)
    requires a.NonEmpty() && b.NonEmpty()
    ensures a.Meets(b) <==> exists c :: a.Contains(c) && b.Contains(c)
  {
    if a.Meets(b) {
      var c := Triple(if a.lo.x < b.lo.x then b.lo.x else a.lo.x,
                      if a.lo.y < b.lo.y then b.lo.y else a.lo.y,
                      if a.lo.z < b.lo.z then b.lo.z else a.lo.z);
      assert a.Contains(c) && b.Contains(c);
    }
  }

  // ----- enumeration, as nested loops -----

  /** The chunk at `a`, `b`, `c` on the outer, middle and inner axes. */
  function Place(o: Order, a: int, b: int, c: int): ChunkCoord {
    Triple(0, 0, 0).With(o.outer, a).With(o.mid, b).With(o.inner, c)
  }

  function Line(o: Order, a: int, b: int, c: int, ch: int): seq<ChunkCoord>
    decreases ch - c
  {
    if c > ch then [] else [Place(o, a, b, c)] + Line(o, a, b, c + 1, ch)
  }

  function Plane(o: Order, a: int, b: int, bh: int, c: int, ch: int): seq<ChunkCoord>
    decreases bh - b
  {
    if b > bh then [] else Line(o, a, b, c, ch) + Plane(o, a, b + 1, bh, c, ch)
  }

  function Space(o: Order, a: int, ah: int, b: int, bh: int, c: int, ch: int): seq<ChunkCoord>
    decreases ah - a
  {
    if a > ah then [] else Plane(o, a, b, bh, c, ch) + Space(o, a + 1, ah, b, bh, c, ch)
  }

  /** Every chunk of the box, the inner axis fastest. */
  function Coords(box: ChunkBox): seq<ChunkCoord> {
    var o := AxisOrder(box.up);
    Space(o, box.lo.At(o.outer), box.hi.At(o.outer), box.lo.At(o.mid), box.hi.At(o.mid),
          box.lo.At(o.inner), box.hi.At(o.inner))
  }

  // ----- the odometer -----

  ghost predicate InRange(lo: Triple, t: Triple, hi: Triple) {
    forall a :: 0 <= a < 3 ==> lo.At(a) <= t.At(a) <= hi.At(a)
  }

  class ChunkBoxIter {
    var cur: Triple
    const start: Triple
    const end: Triple
    const order: Order
    var done: bool

    ghost predicate Valid()
      reads this
    {
      && order.Valid()
      && (!done ==> InRange(start, cur, end))
    }

    /** What is still to come. */
    ghost function Remaining(): seq<ChunkCoord>
      reads this
    {
      if done then [] else From(order, cur, start, end)
    }

    constructor (box: ChunkBox)
      ensures Valid() && Remaining() == Coords(box)
    {
      cur := box.lo;
      start := box.lo;
      end := box.hi;
      order := AxisOrder(box.up);
      done := box.lo.x > box.hi.x || box.lo.y > box.hi.y || box.lo.z > box.hi.z;
      new;
      var o := order;
      if done {
        EmptySpace(o, start.At(o.outer), end.At(o.outer), start.At(o.mid), end.At(o.mid), start.At(o.inner),
          end.At(o.inner));
      }
    }

    method Next() returns (c: Option<ChunkCoord>)
      requires Valid()
      modifies this
      ensures Valid()
      ensures c.None? <==> old(Remaining()) == []
      ensures c.None? ==> Remaining() == []
      ensures c.Some? ==> old(Remaining()) == [c.value] + Remaining()
    {
      if done {
        return None;
      }
      hide InRange, Triple.At, Triple.With, From, Order.Valid;
      var at := cur;
      var outer, mid, inner := order.outer, order.mid, order.inner;
      if cur.At(inner) < end.At(inner) {
        StepInner(order, cur, start, end);
        cur := cur.With(inner, cur.At(inner) + 1);
      } else if cur.At(mid) < end.At(mid) {
        StepMid(order, cur, start, end);
        cur := cur.With(inner, start.At(inner)).With(mid, cur.At(mid) + 1);
      } else if cur.At(outer) < end.At(outer) {
        StepOuter(order, cur, start, end);
        cur := cur.With(inner, start.At(inner)).With(mid, start.At(mid)).With(outer, cur.At(outer) + 1);
      } else {
        StepEnd(order, cur, start, end);
        done := true;
      }
      return Some(at);
    }
  }

  lemma Parts(o: Order, t: Triple, lo: Triple, hi: Triple)
    requires o.Valid() && InRange(lo, t, hi)
    ensures lo.At(o.outer) <= t.At(o.outer) <= hi.At(o.outer)
    ensures lo.At(o.mid) <= t.At(o.mid) <= hi.At(o.mid)
    ensures lo.At(o.inner) <= t.At(o.inner) <= hi.At(o.inner)
  {
  }

  /** A carry into the inner axis, the middle one, or the outer one. */
  lemma Carry(o: Order, t: Triple, a: int, b: int, c: int, lo: Triple, hi: Triple)
    requires o.Valid() && lo.At(o.outer) <= a <= hi.At(o.outer)
    requires lo.At(o.mid) <= b <= hi.At(o.mid) && lo.At(o.inner) <= c <= hi.At(o.inner)
    ensures var n := t.With(o.inner, c).With(o.mid, b).With(o.outer, a);
            && InRange(lo, n, hi) && n.At(o.outer) == a && n.At(o.mid) == b && n.At(o.inner) == c
            && (a == t.At(o.outer) ==> n == t.With(o.inner, c).With(o.mid, b))
            && (a == t.At(o.outer) && b == t.At(o.mid) ==> n == t.With(o.inner, c))
  {
  }

  /** The enumeration from place (`a`, `b`, `c`) on; later rows start at `c0`, later planes at `b0`. */
  function Tail(o: Order, a: int, ah: int, b0: int, b: int, bh: int, c0: int, c: int, ch: int): seq<ChunkCoord> {
    Line(o, a, b, c, ch) + Plane(o, a, b + 1, bh, c0, ch) + Space(o, a + 1, ah, b0, bh, c0, ch)
  }

  /** The odometer's three carries. */
  lemma TailStep(o: Order, a: int, ah: int, b0: int, b: int, bh: int, c0: int, c: int, ch: int)
    requires a <= ah && b0 <= b <= bh && c0 <= c <= ch
    ensures Tail(o, a, ah, b0, b, bh, c0, c, ch) ==
            [Place(o, a, b, c)]
            + (if c < ch then Tail(o, a, ah, b0, b, bh, c0, c + 1, ch)
               else if b < bh then Tail(o, a, ah, b0, b + 1, bh, c0, c0, ch)
               else if a < ah then Tail(o, a + 1, ah, b0, b0, bh, c0, c0, ch)
               else [])
  {
    var head, rest, planes := [Place(o, a, b, c)], Plane(o, a, b + 1, bh, c0, ch), Space(o, a + 1, ah, b0, bh, c0, ch);
    var line := Line(o, a, b, c + 1, ch);
    assert Line(o, a, b, c, ch) == head + line;
    Regroup(head, line, rest, planes);
    if c == ch && b < bh {
      assert line == [] && rest == Line(o, a, b + 1, c0, ch) + Plane(o, a, b + 2, bh, c0, ch);
    } else if c == ch {
      assert line == [] && rest == [];
      if a < ah {
        assert planes == Plane(o, a + 1, b0, bh, c0, ch) + Space(o, a + 2, ah, b0, bh, c0, ch);
        assert Plane(o, a + 1, b0, bh, c0, ch) == Line(o, a + 1, b0, c0, ch) + Plane(o, a + 1, b0 + 1, bh, c0, ch);
      } else {
        assert planes == [];
      }
    }
  }

  lemma Regroup<T>(head: seq<T>, line: seq<T>, rest: seq<T>, planes: seq<T>)
    ensures head + line + rest + planes == head + (line + rest + planes)
    ensures line == [] ==> line + rest + planes == rest + planes
    ensures line == [] && rest == [] ==> line + rest + planes == planes
  {
  }

  lemma PlaceAt(o: Order, t: Triple)
    requires o.Valid()
    ensures Place(o, t.At(o.outer), t.At(o.mid), t.At(o.inner)) == t
  {
  }

  lemma {:induction false} EmptyPlane(o: Order, a: int, b: int, bh: int, c: int, ch: int)
    requires b > bh || c > ch
    ensures Plane(o, a, b, bh, c, ch) == []
    decreases bh - b
  {
    if b <= bh {
      EmptyPlane(o, a, b + 1, bh, c, ch);
    }
  }

  lemma {:induction false} EmptySpace(o: Order, a: int, ah: int, b: int, bh: int, c: int, ch: int)
    requires a > ah || b > bh || c > ch
    ensures Space(o, a, ah, b, bh, c, ch) == []
    decreases ah - a
  {
    if a <= ah {
      EmptyPlane(o, a, b, bh, c, ch);
      EmptySpace(o, a + 1, ah, b, bh, c, ch);
    }
  }

  /** What is still to come from `t` on. */
  function From(o: Order, t: Triple, lo: Triple, hi: Triple): seq<ChunkCoord> {
    Tail(o, t.At(o.outer), hi.At(o.outer), lo.At(o.mid), t.At(o.mid), hi.At(o.mid),
         lo.At(o.inner), t.At(o.inner), hi.At(o.inner))
  }

  /** What comes after `t` when some other place `n` is next. */
  lemma NextIs(o: Order, t: Triple, n: Triple, lo: Triple, hi: Triple, a: int, b: int, c: int)
    requires o.Valid() && InRange(lo, t, hi)
    requires n.At(o.outer) == a && n.At(o.mid) == b && n.At(o.inner) == c
    requires if t.At(o.inner) < hi.At(o.inner) then a == t.At(o.outer) && b == t.At(o.mid) && c == t.At(o.inner) + 1
             else if t.At(o.mid) < hi.At(o.mid) then a == t.At(o.outer) && b == t.At(o.mid) + 1 && c == lo.At(o.inner)
             else t.At(o.outer) < hi.At(o.outer) && a == t.At(o.outer) + 1 && b == lo.At(o.mid) && c == lo.At(o.inner)
    ensures From(o, t, lo, hi) == [t] + From(o, n, lo, hi)
  {
    PlaceAt(o, t);
    Parts(o, t, lo, hi);
    hide InRange, Triple.At, Order.Valid, Tail, Place;
    TailStep(o, t.At(o.outer), hi.At(o.outer), lo.At(o.mid), t.At(o.mid), hi.At(o.mid),
             lo.At(o.inner), t.At(o.inner), hi.At(o.inner));
  }

  lemma StepInner(o: Order, t: Triple, lo: Triple, hi: Triple)
    requires o.Valid() && InRange(lo, t, hi) && t.At(o.inner) < hi.At(o.inner)
    ensures var n := t.With(o.inner, t.At(o.inner) + 1);
            InRange(lo, n, hi) && From(o, t, lo, hi) == [t] + From(o, n, lo, hi)
  {
    Parts(o, t, lo, hi);
    hide *;
    var a, b, c := t.At(o.outer), t.At(o.mid), t.At(o.inner) + 1;
    Carry(o, t, a, b, c, lo, hi);
    NextIs(o, t, t.With(o.inner, c), lo, hi, a, b, c);
  }

  lemma StepMid(o: Order, t: Triple, lo: Triple, hi: Triple)
    requires o.Valid() && InRange(lo, t, hi) && t.At(o.inner) >= hi.At(o.inner) && t.At(o.mid) < hi.At(o.mid)
    ensures var n := t.With(o.inner, lo.At(o.inner)).With(o.mid, t.At(o.mid) + 1);
            InRange(lo, n, hi) && From(o, t, lo, hi) == [t] + From(o, n, lo, hi)
  {
    Parts(o, t, lo, hi);
    hide *;
    var a, b, c := t.At(o.outer), t.At(o.mid) + 1, lo.At(o.inner);
    Carry(o, t, a, b, c, lo, hi);
    NextIs(o, t, t.With(o.inner, c).With(o.mid, b), lo, hi, a, b, c);
  }

  lemma StepOuter(o: Order, t: Triple, lo: Triple, hi: Triple)
    requires o.Valid() && InRange(lo, t, hi)
    requires t.At(o.inner) >= hi.At(o.inner) && t.At(o.mid) >= hi.At(o.mid) && t.At(o.outer) < hi.At(o.outer)
    ensures var n := t.With(o.inner, lo.At(o.inner)).With(o.mid, lo.At(o.mid)).With(o.outer, t.At(o.outer) + 1);
            InRange(lo, n, hi) && From(o, t, lo, hi) == [t] + From(o, n, lo, hi)
  {
    Parts(o, t, lo, hi);
    hide *;
    var a, b, c := t.At(o.outer) + 1, lo.At(o.mid), lo.At(o.inner);
    Carry(o, t, a, b, c, lo, hi);
    NextIs(o, t, t.With(o.inner, c).With(o.mid, b).With(o.outer, a), lo, hi, a, b, c);
  }

  lemma StepEnd(o: Order, t: Triple, lo: Triple, hi: Triple)
    requires o.Valid() && InRange(lo, t, hi)
    requires t.At(o.inner) >= hi.At(o.inner) && t.At(o.mid) >= hi.At(o.mid) && t.At(o.outer) >= hi.At(o.outer)
    ensures From(o, t, lo, hi) == [t]
  {
    PlaceAt(o, t);
    Parts(o, t, lo, hi);
    hide InRange, Triple.At, Order.Valid, Tail, Place;
    TailStep(o, t.At(o.outer), hi.At(o.outer), lo.At(o.mid), t.At(o.mid), hi.At(o.mid),
             lo.At(o.inner), t.At(o.inner), hi.At(o.inner));
  }

  /** Running the odometer to its end gives the enumeration. */
  method Collect(box: ChunkBox) returns (all: seq<ChunkCoord>)
    ensures all == Coords(box)
  {
    hide Coords, ChunkBoxIter.Remaining, ChunkBoxIter.Valid;
    var it := new ChunkBoxIter(box);
    all := [];
    var c := it.Next();
    while c.Some?
      invariant it.Valid()
      invariant Coords(box) == all + (if c.Some? then [c.value] + it.Remaining() else [])
      decreases |it.Remaining()|, c.Some?
    {
      all := all + [c.value];
      c := it.Next();
    }
  }

  // ----- what the enumeration holds -----

  /** Earlier in the enumeration: compared on the outer axis, then the middle, then the inner. */
  predicate Before(o: Order, p: ChunkCoord, q: ChunkCoord) {
    || p.At(o.outer) < q.At(o.outer)
    || (p.At(o.outer) == q.At(o.outer) && p.At(o.mid) < q.At(o.mid))
    || (p.At(o.outer) == q.At(o.outer) && p.At(o.mid) == q.At(o.mid) && p.At(o.inner) < q.At(o.inner))
  }

  /** Every chunk comes before all that follow it, so none comes twice. */
  ghost predicate Ascending(o: Order, s: seq<ChunkCoord>) {
    forall i, j :: 0 <= i < j < |s| ==> Before(o, s[i], s[j])
  }

  lemma AscendingJoin(o: Order, s: seq<ChunkCoord>, t: seq<ChunkCoord>)
    requires Ascending(o, s) && Ascending(o, t)
    requires forall p, q :: p in s && q in t ==> Before(o, p, q)
    ensures Ascending(o, s + t)
  {
  }

  predicate InLine(o: Order, p: ChunkCoord, a: int, b: int, c: int, ch: int) {
    p.At(o.outer) == a && p.At(o.mid) == b && c <= p.At(o.inner) <= ch
  }

  lemma {:induction false} LineHolds(o: Order, a: int, b: int, c: int, ch: int)
    requires o.Valid()
    ensures Ascending(o, Line(o, a, b, c, ch))
    ensures forall p :: p in Line(o, a, b, c, ch) <==> InLine(o, p, a, b, c, ch)
    ensures |Line(o, a, b, c, ch)| == if c > ch then 0 else ch - c + 1
    decreases ch - c
  {
    if c <= ch {
      LineHolds(o, a, b, c + 1, ch);
      var first := Place(o, a, b, c);
      forall p | InLine(o, p, a, b, c, ch) ensures p == first || InLine(o, p, a, b, c + 1, ch) {
        PlaceAt(o, p);
      }
      AscendingJoin(o, [first], Line(o, a, b, c + 1, ch));
    }
  }

  predicate InPlane(o: Order, p: ChunkCoord, a: int, b: int, bh: int, c: int, ch: int) {
    p.At(o.outer) == a && b <= p.At(o.mid) <= bh && c <= p.At(o.inner) <= ch
  }

  lemma {:induction false} PlaneHolds(o: Order, a: int, b: int, bh: int, c: int, ch: int)
    requires o.Valid()
    ensures Ascending(o, Plane(o, a, b, bh, c, ch))
    ensures forall p :: p in Plane(o, a, b, bh, c, ch) <==> InPlane(o, p, a, b, bh, c, ch)
    ensures b <= bh && c <= ch ==> |Plane(o, a, b, bh, c, ch)| == (bh - b + 1) * (ch - c + 1)
    decreases bh - b
  {
    if b <= bh {
      LineHolds(o, a, b, c, ch);
      PlaneHolds(o, a, b + 1, bh, c, ch);
      AscendingJoin(o, Line(o, a, b, c, ch), Plane(o, a, b + 1, bh, c, ch));
      assert (bh - b) * (ch - c + 1) + (ch - c + 1) == (bh - b + 1) * (ch - c + 1);
    }
  }

  lemma {:induction false} SpaceHolds(o: Order, a: int, ah: int, b: int, bh: int, c: int, ch: int)
    requires o.Valid()
    ensures Ascending(o, Space(o, a, ah, b, bh, c, ch))
    ensures forall p ::
      p in Space(o, a, ah, b, bh, c, ch) <==> a <= p.At(o.outer) <= ah && InPlane(o, p, p.At(o.outer), b, bh, c, ch)
    ensures a <= ah && b <= bh && c <= ch ==>
              |Space(o, a, ah, b, bh, c, ch)| == (ah - a + 1) * ((bh - b + 1) * (ch - c + 1))
    decreases ah - a
  {
    if a <= ah {
      PlaneHolds(o, a, b, bh, c, ch);
      SpaceHolds(o, a + 1, ah, b, bh, c, ch);
      AscendingJoin(o, Plane(o, a, b, bh, c, ch), Space(o, a + 1, ah, b, bh, c, ch));
      var m := (bh - b + 1) * (ch - c + 1);
      assert (ah - a) * m + m == (ah - a + 1) * m;
    }
  }

  /** The enumeration yields each chunk the box contains exactly once, in lexicographic order, as many
      as the product of the box's sides. */
  lemma CoordsAreTheBox(box: ChunkBox)
    ensures Ascending(AxisOrder(box.up), Coords(box))
    ensures forall c :: c in Coords(box) <==> box.Contains(c)
    ensures box.NonEmpty() ==> |Coords(box)| == box.Size(0) * box.Size(1) * box.Size(2)
  {
    hide Space;
    var o := AxisOrder(box.up);
    SpaceHolds(o, box.lo.At(o.outer), box.hi.At(o.outer), box.lo.At(o.mid), box.hi.At(o.mid),
               box.lo.At(o.inner), box.hi.At(o.inner));
    assert o == Order(1, 2, 0) || o == Order(0, 1, 2) || o == Order(0, 2, 1);
    BoxVolume(box, o);
  }

  lemma BoxVolume(box: ChunkBox, o: Order)
    requires o.Valid()
    ensures box.Size(o.outer) * (box.Size(o.mid) * box.Size(o.inner)) == box.Size(0) * box.Size(1) * box.Size(2)
  {
    Volume(box.Size(0), box.Size(1), box.Size(2));
  }

  lemma Volume(x: int, y: int, z: int)
    ensures x * (y * z) == x * y * z && x * (z * y) == x * y * z
    ensures y * (x * z) == x * y * z && y * (z * x) == x * y * z
    ensures z * (x * y) == x * y * z && z * (y * x) == x * y * z
  {
  }
}
