/** The difference of two chunk boxes, by skipping spans of rows. */
module CoordDiff {
  import opened Common
  import opened Coord

  function Min(a: int, b: int): int {
    if a < b then a else b
  }

  function Max(a: int, b: int): int {
    if a > b then a else b
  }

  /** Row (`a`, `b`) runs through `other`. */
  predicate Through(o: Order, other: ChunkBox, a: int, b: int) {
    other.lo.At(o.outer) <= a <= other.hi.At(o.outer) && other.lo.At(o.mid) <= b <= other.hi.At(o.mid)
  }

  /** The part of a row below the cut, then the part above it. A row past `other` is cut after its end. */
  function CutLine(o: Order, other: ChunkBox, a: int, b: int, c: int, ch: int): seq<ChunkCoord> {
    var (cutLo, cutHi) :=
      if Through(o, other, a, b) then (other.lo.At(o.inner), other.hi.At(o.inner)) else (ch + 1, ch);
    Line(o, a, b, c, Min(ch, cutLo - 1)) + Line(o, a, b, Max(c, cutHi + 1), ch)
  }

  function CutPlane(o: Order, other: ChunkBox, a: int, b: int, bh: int, c: int, ch: int): seq<ChunkCoord>
    decreases bh - b
  {
    if b > bh then [] else CutLine(o, other, a, b, c, ch) + CutPlane(o, other, a, b + 1, bh, c, ch)
  }

  function CutSpace(o: Order, other: ChunkBox, a: int, ah: int, b: int, bh: int, c: int, ch: int): seq<ChunkCoord>
    decreases ah - a
  {
    if a > ah then [] else CutPlane(o, other, a, b, bh, c, ch) + CutSpace(o, other, a + 1, ah, b, bh, c, ch)
  }

  /** The chunks of `box` outside `other`, a row through `other` skipping its span. */
  function CoordsOutside(box: ChunkBox, other: ChunkBox): seq<ChunkCoord> {
    var o := AxisOrder(box.up);
    CutSpace(o, other, box.lo.At(o.outer), box.hi.At(o.outer), box.lo.At(o.mid), box.hi.At(o.mid),
             box.lo.At(o.inner), box.hi.At(o.inner))
  }

  /** What `other` does not hold, chunk by chunk, in order. */
  function Outside(s: seq<ChunkCoord>, other: ChunkBox): seq<ChunkCoord> {
    if s == [] then []
    else (if other.Contains(s[0]) then [] else [s[0]]) + Outside(s[1..], other)
  }

  lemma {:induction false} OutsideJoin(s: seq<ChunkCoord>, t: seq<ChunkCoord>, other: ChunkBox)
    ensures Outside(s + t, other) == Outside(s, other) + Outside(t, other)
  {
    if s == [] {
      assert s + t == t;
    } else {
      assert (s + t)[1..] == s[1..] + t;
      OutsideJoin(s[1..], t, other);
    }
  }

  lemma ContainsOnAxes(o: Order, other: ChunkBox, a: int, b: int, c: int)
    requires o.Valid()
    ensures other.Contains(Place(o, a, b, c)) <==>
            Through(o, other, a, b) && other.lo.At(o.inner) <= c <= other.hi.At(o.inner)
  {
  }

  /** The overlap of a cut row's two parts: chunks the row yields twice. */
  function Doubled(o: Order, other: ChunkBox, a: int, b: int, c: int, ch: int): int {
    if Through(o, other, a, b) then
      Max(0, Min(ch, other.lo.At(o.inner) - 1) - Max(c, other.hi.At(o.inner) + 1) + 1)
    else 0
  }

  /** A line wholly outside loses nothing, one wholly inside everything. */
  lemma {:induction false} OutsideAll(o: Order, other: ChunkBox, a: int, b: int, c: int, ch: int)
    requires o.Valid()
    ensures !Through(o, other, a, b) || other.lo.At(o.inner) > ch || other.hi.At(o.inner) < c
            || other.lo.At(o.inner) > other.hi.At(o.inner)
            ==> Outside(Line(o, a, b, c, ch), other) == Line(o, a, b, c, ch)
    ensures Through(o, other, a, b) && other.lo.At(o.inner) <= c && ch <= other.hi.At(o.inner)
            ==> Outside(Line(o, a, b, c, ch), other) == []
    decreases ch - c
  {
    if c <= ch {
      ContainsOnAxes(o, other, a, b, c);
      OutsideAll(o, other, a, b, c + 1, ch);
      assert Line(o, a, b, c, ch)[1..] == Line(o, a, b, c + 1, ch);
    }
  }

  lemma {:induction false} LineSplit(o: Order, a: int, b: int, c: int, m: int, ch: int)
    requires c - 1 <= m <= ch
    ensures Line(o, a, b, c, ch) == Line(o, a, b, c, m) + Line(o, a, b, m + 1, ch)
    decreases m - c
  {
    if c <= m {
      LineSplit(o, a, b, c + 1, m, ch);
    }
  }

  /** A row through a span `l..h` that is empty or inside out: nothing is filtered away, and what lies
      in both parts comes twice. */
  lemma InsideOutRow(o: Order, a: int, b: int, c: int, ch: int, l: int, h: int)
    requires o.Valid() && l > h && c <= ch
    ensures var (m, n) := (Min(ch, l - 1), Max(c, h + 1));
            var cut := Line(o, a, b, c, m) + Line(o, a, b, n, ch);
            && |cut| == |Line(o, a, b, c, ch)| + Max(0, m - n + 1)
            && (m < n ==> cut == Line(o, a, b, c, ch))
  {
    var m, n := Min(ch, l - 1), Max(c, h + 1);
    LineHolds(o, a, b, c, ch);
    LineHolds(o, a, b, c, m);
    LineHolds(o, a, b, n, ch);
    if m < n {
      if n == c {
        assert Line(o, a, b, c, m) == [];
      } else if m == ch {
        assert Line(o, a, b, n, ch) == [];
      } else {
        LineSplit(o, a, b, c, m, ch);
      }
    }
  }

  /** The three parts of a row that a proper span cuts, where the span's part runs from `m + 1` to `n - 1`. */
  lemma CutParts(o: Order, other: ChunkBox, a: int, b: int, c: int, ch: int, m: int, n: int)
    requires o.Valid() && c <= ch && Through(o, other, a, b) && other.lo.At(o.inner) <= other.hi.At(o.inner)
    requires m == Max(c - 1, Min(ch, other.lo.At(o.inner) - 1)) && n == Min(ch + 1, Max(c, other.hi.At(o.inner) + 1))
    ensures Outside(Line(o, a, b, c, m), other) == Line(o, a, b, c, m)
    ensures Outside(Line(o, a, b, m + 1, n - 1), other) == []
    ensures Outside(Line(o, a, b, n, ch), other) == Line(o, a, b, n, ch)
    ensures c - 1 <= m <= n - 1 <= ch
  {
    if m >= c {
      OutsideAll(o, other, a, b, c, m);
    }
    if m + 1 <= n - 1 {
      OutsideAll(o, other, a, b, m + 1, n - 1);
    }
    if n <= ch {
      OutsideAll(o, other, a, b, n, ch);
    }
  }

  /** A row through a proper span: what lies in the span is exactly what goes. */
  lemma CutRow(o: Order, other: ChunkBox, a: int, b: int, c: int, ch: int)
    requires o.Valid() && c <= ch && Through(o, other, a, b) && other.lo.At(o.inner) <= other.hi.At(o.inner)
    ensures CutLine(o, other, a, b, c, ch) == Outside(Line(o, a, b, c, ch), other)
  {
    var l, h := other.lo.At(o.inner), other.hi.At(o.inner);
    var m, n := Max(c - 1, Min(ch, l - 1)), Min(ch + 1, Max(c, h + 1));
    CutParts(o, other, a, b, c, ch, m, n);
    SameParts(o, other, a, b, c, ch);
    InThree(o, a, b, c, m, n, ch);
    hide *;
    WithoutMiddle(Line(o, a, b, c, ch), Line(o, a, b, c, m), Line(o, a, b, m + 1, n - 1), Line(o, a, b, n, ch), other);
  }

  lemma InThree(o: Order, a: int, b: int, c: int, m: int, n: int, ch: int)
    requires c - 1 <= m <= n - 1 <= ch
    ensures Line(o, a, b, c, ch) == Line(o, a, b, c, m) + (Line(o, a, b, m + 1, n - 1) + Line(o, a, b, n, ch))
  {
    hide Line;
    LineSplit(o, a, b, c, m, ch);
    LineSplit(o, a, b, m + 1, n - 1, ch);
  }

  lemma SameParts(o: Order, other: ChunkBox, a: int, b: int, c: int, ch: int)
    requires c <= ch && Through(o, other, a, b) && other.lo.At(o.inner) <= other.hi.At(o.inner)
    ensures CutLine(o, other, a, b, c, ch) ==
            Line(o, a, b, c, Max(c - 1, Min(ch, other.lo.At(o.inner) - 1)))
            + Line(o, a, b, Min(ch + 1, Max(c, other.hi.At(o.inner) + 1)), ch)
  {
    var l, h := other.lo.At(o.inner), other.hi.At(o.inner);
    assert Line(o, a, b, c, Min(ch, l - 1)) == Line(o, a, b, c, Max(c - 1, Min(ch, l - 1)));
    assert Line(o, a, b, Max(c, h + 1), ch) == Line(o, a, b, Min(ch + 1, Max(c, h + 1)), ch);
  }

  lemma WithoutMiddle(s: seq<ChunkCoord>, below: seq<ChunkCoord>, mid: seq<ChunkCoord>, above: seq<ChunkCoord>,
      other: ChunkBox)
    requires s == below + (mid + above)
    requires Outside(below, other) == below && Outside(mid, other) == [] && Outside(above, other) == above
    ensures Outside(s, other) == below + above
  {
    OutsideJoin(below, mid + above, other);
    OutsideJoin(mid, above, other);
    assert [] + above == above;
  }

  /** A cut row is the filtered row, unless an inside-out span doubles part of it. */
  lemma CutLineFilters(o: Order, other: ChunkBox, a: int, b: int, c: int, ch: int)
    requires o.Valid()
    ensures Doubled(o, other, a, b, c, ch) == 0
      ==> CutLine(o, other, a, b, c, ch) == Outside(Line(o, a, b, c, ch), other)
    ensures |CutLine(o, other, a, b, c, ch)| == |Outside(Line(o, a, b, c, ch), other)| + Doubled(o, other, a, b, c, ch)
  {
    hide Line, Outside;
    var l, h := other.lo.At(o.inner), other.hi.At(o.inner);
    if !Through(o, other, a, b) || c > ch {
      UncutRow(o, other, a, b, c, ch);
    } else if l > h {
      hide Min, Max;
      OutsideAll(o, other, a, b, c, ch);
      InsideOutRow(o, a, b, c, ch, l, h);
    } else {
      hide CutLine;
      CutRow(o, other, a, b, c, ch);
      assert Doubled(o, other, a, b, c, ch) == 0;
    }
  }

  /** A row beside the span, or an empty one, is left whole. */
  lemma UncutRow(o: Order, other: ChunkBox, a: int, b: int, c: int, ch: int)
    requires o.Valid() && (!Through(o, other, a, b) || c > ch)
    ensures Doubled(o, other, a, b, c, ch) == 0
    ensures CutLine(o, other, a, b, c, ch) == Outside(Line(o, a, b, c, ch), other)
  {
    var l, h := other.lo.At(o.inner), other.hi.At(o.inner);
    OutsideAll(o, other, a, b, c, ch);
    EmptyLine(o, a, b, Max(c, ch + 1), ch);
    if c > ch {
      EmptyLine(o, a, b, Max(c, h + 1), ch);
      EmptyLine(o, a, b, c, Min(ch, l - 1));
      EmptyLine(o, a, b, c, ch);
    }
    hide Line, Outside;
  }

  lemma EmptyLine(o: Order, a: int, b: int, c: int, ch: int)
    requires c > ch
    ensures Line(o, a, b, c, ch) == []
  {
  }

  // ----- planes and boxes -----

  function DoubledPlane(o: Order, other: ChunkBox, a: int, b: int, bh: int, c: int, ch: int): nat
    decreases bh - b
  {
    if b > bh then 0 else Doubled(o, other, a, b, c, ch) + DoubledPlane(o, other, a, b + 1, bh, c, ch)
  }

  function DoubledSpace(o: Order, other: ChunkBox, a: int, ah: int, b: int, bh: int, c: int, ch: int): nat
    decreases ah - a
  {
    if a > ah then 0 else DoubledPlane(o, other, a, b, bh, c, ch) + DoubledSpace(o, other, a + 1, ah, b, bh, c, ch)
  }

  lemma {:induction false} CutPlaneFilters(o: Order, other: ChunkBox, a: int, b: int, bh: int, c: int, ch: int)
    requires o.Valid()
    ensures DoubledPlane(o, other, a, b, bh, c, ch) == 0 ==>
              CutPlane(o, other, a, b, bh, c, ch) == Outside(Plane(o, a, b, bh, c, ch), other)
    ensures |CutPlane(o, other, a, b, bh, c, ch)|
            == |Outside(Plane(o, a, b, bh, c, ch), other)| + DoubledPlane(o, other, a, b, bh, c, ch)
    decreases bh - b
  {
    if b <= bh {
      CutLineFilters(o, other, a, b, c, ch);
      CutPlaneFilters(o, other, a, b + 1, bh, c, ch);
      OutsideJoin(Line(o, a, b, c, ch), Plane(o, a, b + 1, bh, c, ch), other);
    }
  }

  lemma {:induction false} CutSpaceFilters(o: Order, other: ChunkBox, a: int, ah: int, b: int, bh: int, c: int, ch: int)
    requires o.Valid()
    ensures DoubledSpace(o, other, a, ah, b, bh, c, ch) == 0 ==>
              CutSpace(o, other, a, ah, b, bh, c, ch) == Outside(Space(o, a, ah, b, bh, c, ch), other)
    ensures |CutSpace(o, other, a, ah, b, bh, c, ch)|
            == |Outside(Space(o, a, ah, b, bh, c, ch), other)| + DoubledSpace(o, other, a, ah, b, bh, c, ch)
    decreases ah - a
  {
    if a <= ah {
      CutPlaneFilters(o, other, a, b, bh, c, ch);
      CutSpaceFilters(o, other, a + 1, ah, b, bh, c, ch);
      OutsideJoin(Plane(o, a, b, bh, c, ch), Space(o, a + 1, ah, b, bh, c, ch), other);
    }
  }

  /** Some row of `box` runs through `other` where the other's span is inside out with a gap. */
  ghost predicate Doubles(box: ChunkBox, other: ChunkBox) {
    var o := AxisOrder(box.up);
    exists a, b ::
      && box.lo.At(o.outer) <= a <= box.hi.At(o.outer) && box.lo.At(o.mid) <= b <= box.hi.At(o.mid)
      && Doubled(o, other, a, b, box.lo.At(o.inner), box.hi.At(o.inner)) > 0
  }

  lemma {:induction false} DoubledPlanePositive(o: Order, other: ChunkBox, a: int, b: int, bh: int, c: int, ch: int)
    ensures DoubledPlane(o, other, a, b, bh, c, ch) > 0
      <==> exists r :: b <= r <= bh && Doubled(o, other, a, r, c, ch) > 0
    decreases bh - b
  {
    if b <= bh {
      DoubledPlanePositive(o, other, a, b + 1, bh, c, ch);
      if Doubled(o, other, a, b, c, ch) == 0 && DoubledPlane(o, other, a, b + 1, bh, c, ch) > 0 {
        var r :| b + 1 <= r <= bh && Doubled(o, other, a, r, c, ch) > 0;
        assert b <= r <= bh && Doubled(o, other, a, r, c, ch) > 0;
      }
    }
  }

  lemma {:induction false} DoubledSpacePositive(o: Order, other: ChunkBox, a: int, ah: int, b: int, bh: int, c: int,
      ch: int)
    ensures DoubledSpace(o, other, a, ah, b, bh, c, ch) > 0 <==>
            exists p, r :: a <= p <= ah && b <= r <= bh && Doubled(o, other, p, r, c, ch) > 0
    decreases ah - a
  {
    if a <= ah {
      DoubledPlanePositive(o, other, a, b, bh, c, ch);
      DoubledSpacePositive(o, other, a + 1, ah, b, bh, c, ch);
      if DoubledPlane(o, other, a, b, bh, c, ch) > 0 {
        var r :| b <= r <= bh && Doubled(o, other, a, r, c, ch) > 0;
        assert a <= a <= ah && b <= r <= bh && Doubled(o, other, a, r, c, ch) > 0;
      } else if DoubledSpace(o, other, a + 1, ah, b, bh, c, ch) > 0 {
        var p, r :| a + 1 <= p <= ah && b <= r <= bh && Doubled(o, other, p, r, c, ch) > 0;
        assert a <= p <= ah && b <= r <= bh && Doubled(o, other, p, r, c, ch) > 0;
      }
    }
  }

  /** Skipping spans yields the enumeration without what `other` holds, in the same order, exactly
      when no row runs through a span of `other` that is inside out with a gap. */
  lemma OutsideIsFiltered(box: ChunkBox, other: ChunkBox)
    ensures CoordsOutside(box, other) == Outside(Coords(box), other) <==> !Doubles(box, other)
  {
    var o := AxisOrder(box.up);
    var (a, ah) := (box.lo.At(o.outer), box.hi.At(o.outer));
    var (b, bh) := (box.lo.At(o.mid), box.hi.At(o.mid));
    var (c, ch) := (box.lo.At(o.inner), box.hi.At(o.inner));
    CutSpaceFilters(o, other, a, ah, b, bh, c, ch);
    DoubledSpacePositive(o, other, a, ah, b, bh, c, ch);
  }

  /** So a non-empty `other` never doubles anything. */
  lemma NonEmptyNeverDoubles(box: ChunkBox, other: ChunkBox)
    requires other.NonEmpty()
    ensures CoordsOutside(box, other) == Outside(Coords(box), other)
  {
    OutsideIsFiltered(box, other);
  }

  lemma {:induction false} OutsideMembers(s: seq<ChunkCoord>, other: ChunkBox)
    ensures forall c :: c in Outside(s, other) <==> c in s && !other.Contains(c)
  {
    if s != [] {
      OutsideMembers(s[1..], other);
    }
  }

  // ----- as sets the two always agree -----

  lemma ContainsPlaced(o: Order, other: ChunkBox, p: ChunkCoord)
    requires o.Valid()
    ensures other.Contains(p) <==>
            Through(o, other, p.At(o.outer), p.At(o.mid))
              && other.lo.At(o.inner) <= p.At(o.inner) <= other.hi.At(o.inner)
  {
    PlaceAt(o, p);
    ContainsOnAxes(o, other, p.At(o.outer), p.At(o.mid), p.At(o.inner));
  }

  lemma CutLineMembers(o: Order, other: ChunkBox, a: int, b: int, c: int, ch: int, p: ChunkCoord)
    requires o.Valid()
    ensures p in CutLine(o, other, a, b, c, ch) <==> p in Line(o, a, b, c, ch) && !other.Contains(p)
  {
    hide Line, ChunkBox.Contains;
    var (l, h) := if Through(o, other, a, b) then (other.lo.At(o.inner), other.hi.At(o.inner)) else (ch + 1, ch);
    LineHolds(o, a, b, c, ch);
    LineHolds(o, a, b, c, Min(ch, l - 1));
    LineHolds(o, a, b, Max(c, h + 1), ch);
    ContainsPlaced(o, other, p);
  }

  lemma {:induction false} CutPlaneMembers(o: Order, other: ChunkBox, a: int, b: int, bh: int, c: int, ch: int,
      p: ChunkCoord)
    requires o.Valid()
    ensures p in CutPlane(o, other, a, b, bh, c, ch) <==> p in Plane(o, a, b, bh, c, ch) && !other.Contains(p)
    decreases bh - b
  {
    if b <= bh {
      hide CutLine, Line, ChunkBox.Contains;
      CutLineMembers(o, other, a, b, c, ch, p);
      CutPlaneMembers(o, other, a, b + 1, bh, c, ch, p);
    }
  }

  lemma {:induction false} CutSpaceMembers(
    o: Order, other: ChunkBox, a: int, ah: int, b: int, bh: int, c: int, ch: int, p: ChunkCoord)
    requires o.Valid()
    ensures p in CutSpace(o, other, a, ah, b, bh, c, ch) <==> p in Space(o, a, ah, b, bh, c, ch) && !other.Contains(p)
    decreases ah - a
  {
    if a <= ah {
      hide CutPlane, Plane, ChunkBox.Contains;
      CutPlaneMembers(o, other, a, b, bh, c, ch, p);
      CutSpaceMembers(o, other, a + 1, ah, b, bh, c, ch, p);
    }
  }

  /** For any two boxes, inside out or not, the difference misses no chunk and adds none: it yields just
      those of `box` that `other` does not hold, each at least once. */
  lemma OutsideHoldsTheDifference(box: ChunkBox, other: ChunkBox, p: ChunkCoord)
    ensures p in CoordsOutside(box, other) <==> box.Contains(p) && !other.Contains(p)
    ensures p in CoordsOutside(box, other) <==> p in Outside(Coords(box), other)
  {
    var o := AxisOrder(box.up);
    CutSpaceMembers(o, other, box.lo.At(o.outer), box.hi.At(o.outer), box.lo.At(o.mid), box.hi.At(o.mid),
      box.lo.At(o.inner), box.hi.At(o.inner), p);
    OutsideMembers(Coords(box), other);
    hide Space, CutSpace, Outside, ChunkBox.Contains;
    CoordsAreTheBox(box);
  }

  // ----- the exception -----

  /** Every box a negative vertical radius of one makes is such an `other`: the centre's layer of a
      box around the same centre comes twice. */
  lemma InsideOutDoubles(center: ChunkCoord, rh: int, rv: int, r: int, f: Face)
    requires rh >= 0 && rv >= 0 && r >= 0
    ensures var box, other := WithUp(center, rh, rv, Some(f)), WithUp(center, r, -1, Some(f));
            Doubles(box, other) && CoordsOutside(box, other) != Outside(Coords(box), other)
  {
    var box, other := WithUp(center, rh, rv, Some(f)), WithUp(center, r, -1, Some(f));
    var o := AxisOrder(box.up);
    assert o.inner == f.Axis() && o.outer != f.Axis() && o.mid != f.Axis();
    assert Through(o, other, center.At(o.outer), center.At(o.mid));
    assert Doubled(o, other, center.At(o.outer), center.At(o.mid), box.lo.At(o.inner), box.hi.At(o.inner)) == 1;
    OutsideIsFiltered(box, other);
  }

  /** The least of them: a single chunk, yielded twice. */
  lemma OneChunkTwice(center: ChunkCoord)
    ensures var box, other := WithUp(center, 0, 0, Some(PosY)), WithUp(center, 0, -1, Some(PosY));
            CoordsOutside(box, other) == [center, center] && Outside(Coords(box), other) == [center]
  {
    var box, other := WithUp(center, 0, 0, Some(PosY)), WithUp(center, 0, -1, Some(PosY));
    var o := AxisOrder(box.up);
    var (x, y, z) := (center.x, center.y, center.z);
    assert o == Order(0, 2, 1) && Place(o, x, z, y) == center;
    assert Line(o, x, z, y, y) == [center];
    assert Plane(o, x, z, z, y, y) == [center] + Plane(o, x, z + 1, z, y, y) == [center];
    assert Coords(box) == [center] + Space(o, x + 1, x, z, z, y, y) == [center];
    assert !other.Contains(center) && Outside([center], other) == [center];
    assert CutLine(o, other, x, z, y, y) == [center] + [center];
    assert CutPlane(o, other, x, z, z, y, y) == [center, center] + CutPlane(o, other, x, z + 1, z, y, y);
    assert CoordsOutside(box, other) == [center, center] + CutSpace(o, other, x + 1, x, z, z, y, y);
  }
}
