/** The minimap raster: rebuilt whole, or shifted with only the exposed strips repainted. */
module Minimap {
  import opened Common
  import opened Raster

  const SIZE := 256
  const CHUNK_SIZE := 16
  const TEXELS := 65536
  const BYTES := 262144
  /** The height of a column with nothing to show. */
  const NO_HEIGHT := -0x8000_0000

  type Byte = x: int | 0 <= x < 256

  datatype Face = NegX | PosX | NegZ | PosZ | NegY | PosY
  datatype Color = Color(r: Byte, g: Byte, b: Byte, a: Byte)
  datatype Top = Top(height: int, color: Color)
  datatype Col = Col(x: int, y: int)

  /** The top solid block of each face-local column. */
  type Surface = (Face, int, int) -> Option<Top>

  /** The world as the minimap reads it: its surface, and a stamp of the chunk columns
      `[cu0, cu1] x [cv0, cv1]`. */
  datatype World = World(surface: Surface, stamp: (Face, int, int, int, int) -> int)

  /** The two slope factors, as functions of a colour byte. */
  datatype Tint = Tint(brighten: Byte -> Byte, darken: Byte -> Byte)

  function Channel(c: Color, k: int): Byte {
    if k == 0 then c.r else if k == 1 then c.g else if k == 2 then c.b else c.a
  }

  /** Channel `k` of a texel of height `h` between its west and north neighbours. */
  function ShadeByte(tint: Tint, h: int, nx: int, nz: int, k: int, b: Byte): Byte {
    var neighbour := if nx > nz then nx else nz;
    if k == 3 || h == NO_HEIGHT || neighbour == NO_HEIGHT || h == neighbour then b
    else if h > neighbour then tint.brighten(b)
    else tint.darken(b)
  }

  /** The slope shading: a texel above both neighbours it has is brightened, one below either is darkened,
      a level one, one without neighbours or without height, and its alpha, stay. */
  lemma ShadeFollowsSlope(tint: Tint, h: int, nx: int, nz: int, k: int, b: Byte)
    requires h >= NO_HEIGHT && nx >= NO_HEIGHT && nz >= NO_HEIGHT
    ensures var lone, flat := nx == NO_HEIGHT && nz == NO_HEIGHT, k == 3 || h == NO_HEIGHT;
            && (flat || lone ==> ShadeByte(tint, h, nx, nz, k, b) == b)
            && (!flat && !lone && h > nx && h > nz ==> ShadeByte(tint, h, nx, nz, k, b) == tint.brighten(b))
            && (!flat && (h < nx || h < nz) ==> ShadeByte(tint, h, nx, nz, k, b) == tint.darken(b))
            && (!flat && h >= nx && h >= nz && (h == nx || h == nz) ==> ShadeByte(tint, h, nx, nz, k, b) == b)
  {
  }

  /** What a raster centred on (`cx`, `cy`) is to show. Texel `i` lies in column `i % 256` and row
      `i / 256`; byte `j` is channel `j % 4` of texel `j / 4`. */
  datatype Picture = Picture(surface: Surface, face: Face, cx: int, cy: int, void: Color, tint: Tint) {
    function TopAt(i: int): Top {
      match surface(face, cx - 128 + i % 256, cy - 128 + i / 256)
      case None => Top(NO_HEIGHT, void)
      case Some(top) => top
    }

    function Height(i: int): int {
      TopAt(i).height
    }

    function Plain(j: int): Byte {
      Channel(TopAt(j / 4).color, j % 4)
    }

    function Shaded(j: int): Byte {
      var i := j / 4;
      ShadeByte(tint, Height(i),
                if i % 256 > 0 then Height(i - 1) else NO_HEIGHT,
                if i / 256 > 0 then Height(i - 256) else NO_HEIGHT,
                j % 4, Plain(j))
    }
  }

  /** Column `u` of row `v` shows the surface `u - 128` by `v - 128` from the centre, its bytes red, green, blue
      and alpha; the void where there is none. */
  lemma TexelShows(p: Picture, u: int, v: int)
    requires 0 <= u < 256 && 0 <= v < 256
    ensures var i, top := v * 256 + u, p.surface(p.face, p.cx + u - 128, p.cy + v - 128);
            var color := if top.Some? then top.value.color else p.void;
            && p.Plain(4 * i) == color.r && p.Plain(4 * i + 1) == color.g
            && p.Plain(4 * i + 2) == color.b && p.Plain(4 * i + 3) == color.a
            && p.Height(i) == if top.Some? then top.value.height else NO_HEIGHT
  {
    var i := v * 256 + u;
    assert i % 256 == u && i / 256 == v;
    assert (4 * i + 1) / 4 == i && (4 * i + 2) / 4 == i && (4 * i + 3) / 4 == i;
  }

  predicate InRect(i: int, u0: int, v0: int, u1: int, v1: int) {
    u0 <= i % 256 < u1 && v0 <= i / 256 < v1
  }

  /** The contents of the three rasters. */
  datatype Content = Content(topY: seq<int>, base: seq<Byte>, rgba: seq<Byte>) {
    predicate Shaped() {
      |topY| == TEXELS && |base| == BYTES && |rgba| == BYTES
    }
  }

  /** The part of texels `[a, b)` before chunk `c`, where texel 0 lies at world coordinate `o`. */
  function Upto(a: int, b: int, c: int, o: int): int {
    var end := c * 16 - o;
    if end < a then a else if end > b then b else end
  }

  lemma InChunk(x: int, lo: int, hi: int, c: int)
    requires c * 16 <= lo <= x <= hi < c * 16 + 16
    ensures x == c * 16 + x % 16 && lo % 16 <= x % 16 < hi % 16 + 1
  {
  }

  /** The clip of a span of texels to one of the chunks it meets. */
  lemma MeetsChunk(a: int, b: int, c: int, o: int, lo: int, hi: int)
    requires 0 <= a < b <= SIZE && (o + a) / 16 <= c <= (o + b - 1) / 16
    requires lo == (if o + a > c * 16 then o + a else c * 16)
    requires hi == (if o + b - 1 < c * 16 + 15 then o + b - 1 else c * 16 + 15)
    ensures lo - o == Upto(a, b, c, o) && hi + 1 - o == Upto(a, b, c + 1, o)
    ensures c * 16 <= lo <= hi < c * 16 + 16 && o <= lo && hi < o + 256
  {
  }

  /** From `s` to `t` the texels of the rectangle were set to what `p` says, unshaded, and the
      others were left alone. */
  ghost predicate Painted(p: Picture, s: Content, t: Content, u0: int, v0: int, u1: int, v1: int)
    requires s.Shaped() && t.Shaped()
  {
    && (forall i :: 0 <= i < TEXELS ==> t.topY[i] == if InRect(i, u0, v0, u1, v1) then p.Height(i) else s.topY[i])
    && (forall j :: 0 <= j < BYTES ==> t.base[j] == if InRect(j / 4, u0, v0, u1, v1) then p.Plain(j) else s.base[j])
    && (forall j :: 0 <= j < BYTES ==> t.rgba[j] == if InRect(j / 4, u0, v0, u1, v1) then p.Plain(j) else s.rgba[j])
  }

  lemma NothingPainted(p: Picture, s: Content, u0: int, v0: int, u1: int, v1: int)
    requires s.Shaped() && (u0 >= u1 || v0 >= v1)
    ensures Painted(p, s, s, u0, v0, u1, v1)
  {
  }

  lemma TexelPainted(p: Picture, s: Content, t: Content, u: nat, v: nat, idx: nat)
    requires s.Shaped() && t.Shaped() && u < SIZE && v < SIZE && idx == v * 256 + u
    requires t.topY == s.topY[idx := p.TopAt(idx).height]
    requires forall j :: 0 <= j < BYTES ==>
               t.base[j] == if idx * 4 <= j < idx * 4 + 4 then Channel(p.TopAt(idx).color, j - idx * 4) else s.base[j]
    requires forall j :: 0 <= j < BYTES ==>
               t.rgba[j] == if idx * 4 <= j < idx * 4 + 4 then Channel(p.TopAt(idx).color, j - idx * 4) else s.rgba[j]
    ensures Painted(p, s, t, u, v, u + 1, v + 1)
  {
    hide InRect, Picture.TopAt, Channel;
    forall i | 0 <= i < TEXELS
      ensures t.topY[i] == if InRect(i, u, v, u + 1, v + 1) then p.Height(i) else s.topY[i]
    {
      OneTexel(i, u, v);
    }
    forall j | 0 <= j < BYTES
      ensures t.base[j] == if InRect(j / 4, u, v, u + 1, v + 1) then p.Plain(j) else s.base[j]
      ensures t.rgba[j] == if InRect(j / 4, u, v, u + 1, v + 1) then p.Plain(j) else s.rgba[j]
    {
      OneTexel(j / 4, u, v);
      assert idx * 4 <= j < idx * 4 + 4 <==> j / 4 == idx;
      assert j / 4 == idx ==> j % 4 == j - idx * 4;
    }
  }

  lemma OneTexel(i: int, u: int, v: int)
    requires 0 <= i < TEXELS && 0 <= u < SIZE
    ensures InRect(i, u, v, u + 1, v + 1) <==> i == v * 256 + u
  {
  }

  lemma PaintedAcross(p: Picture, s: Content, m: Content, t: Content, u0: int, u: int, u1: int, v0: int, v1: int)
    requires s.Shaped() && m.Shaped() && t.Shaped() && u0 <= u <= u1
    requires Painted(p, s, m, u0, v0, u, v1) && Painted(p, m, t, u, v0, u1, v1)
    ensures Painted(p, s, t, u0, v0, u1, v1)
  {
  }

  lemma PaintedDown(p: Picture, s: Content, m: Content, t: Content, u0: int, u1: int, v0: int, v: int, v1: int)
    requires s.Shaped() && m.Shaped() && t.Shaped() && v0 <= v <= v1
    requires Painted(p, s, m, u0, v0, u1, v) && Painted(p, m, t, u0, v, u1, v1)
    ensures Painted(p, s, t, u0, v0, u1, v1)
  {
  }

  /** Texels whose source lies outside a raster moved by (`dx`, `dz`). */
  predicate Exposed(i: int, dx: int, dz: int) {
    !(0 <= i % 256 + dx < 256 && 0 <= i / 256 + dz < 256)
  }

  /** The texel, and the byte, that a move by (`dx`, `dz`) brings to a kept place. */
  function TexelFrom(i: int, dx: int, dz: int): int {
    i + dz * 256 + dx
  }

  function ByteFrom(j: int, dx: int, dz: int): int {
    j + dz * 1024 + dx * 4
  }

  /** Kept texels that had, or now have, a west or north neighbour the other raster lacks. */
  predicate OnEdge(i: int, dx: int, dz: int) {
    && !Exposed(i, dx, dz)
    && ((dx != 0 && i % 256 == if dx > 0 then 0 else -dx) || (dz != 0 && i / 256 == if dz > 0 then 0 else -dz))
  }

  function Chess(a: Col, b: Col): nat {
    var (dx, dy) := (a.x - b.x, a.y - b.y);
    var (mx, my) := (if dx < 0 then -dx else dx, if dy < 0 then -dy else dy);
    if mx > my then mx else my
  }

  /** The stamp of the chunk columns that a raster centred on `c` covers. */
  function SurfaceStamp(world: World, face: Face, c: Col): int {
    var (u0, v0) := (c.x - SIZE / 2, c.y - SIZE / 2);
    (world.stamp)(face, u0 / CHUNK_SIZE, (u0 + SIZE - 1) / CHUNK_SIZE, v0 / CHUNK_SIZE, (v0 + SIZE - 1) / CHUNK_SIZE)
  }

  /** The stamps tell the surfaces apart: where they agree on some chunk columns, so do the surfaces. */
  ghost predicate HonestStamps(a: World, b: World) {
    forall f, u0, u1, v0, v1, x, y ::
      && (a.stamp)(f, u0, u1, v0, v1) == (b.stamp)(f, u0, u1, v0, v1)
      && u0 <= x / 16 <= u1 && v0 <= y / 16 <= v1
      ==> (a.surface)(f, x, y) == (b.surface)(f, x, y)
  }

  /** A raster's stamp covers every column it shows: with honest stamps, an unchanged stamp is an unchanged
      picture, so that skipping a rebuild loses nothing. */
  lemma SameStampSamePicture(a: World, b: World, face: Face, c: Col, void: Color, tint: Tint, i: int)
    requires HonestStamps(a, b) && SurfaceStamp(a, face, c) == SurfaceStamp(b, face, c) && 0 <= i < TEXELS
    ensures Picture(a.surface, face, c.x, c.y, void, tint).TopAt(i)
         == Picture(b.surface, face, c.x, c.y, void, tint).TopAt(i)
  {
    var x, y := c.x - 128 + i % 256, c.y - 128 + i / 256;
    InSpan(x, c.x - 128);
    InSpan(y, c.y - 128);
    assert (a.surface)(face, x, y) == (b.surface)(face, x, y);
  }

  lemma InSpan(x: int, o: int)
    requires o <= x < o + 256
    ensures o / 16 <= x / 16 <= (o + 255) / 16
  {
  }

  /** The columns both a raster centred on `a` and one centred on `b` cover. */
  predicate Shared(a: Col, b: Col, x: int, y: int) {
    && a.x - 128 <= x < a.x + 128 && a.y - 128 <= y < a.y + 128
    && b.x - 128 <= x < b.x + 128 && b.y - 128 <= y < b.y + 128
  }

  /** `before` on the columns shared by the two centres, `now` elsewhere. */
  function Patched(before: Surface, now: Surface, a: Col, b: Col): Surface {
    (f: Face, x: int, y: int) => if Shared(a, b, x, y) then before(f, x, y) else now(f, x, y)
  }

  /** `i` places of a moved raster, flat: the row form of `Raster.Shift` with rows of 256 values. */
  lemma TexelsMoved(s: seq<int>, t: seq<int>, dx: int, dz: int)
    requires |s| == |t| == TEXELS && RowsMoved(s, t, SIZE, SIZE, dx, dz, 0, SIZE)
    ensures forall i :: 0 <= i < TEXELS ==>
              t[i] == if Exposed(i, dx, dz) then s[i] else s[TexelFrom(i, dx, dz)]
  {
    forall i | 0 <= i < TEXELS ensures t[i] == if Exposed(i, dx, dz) then s[i] else s[TexelFrom(i, dx, dz)] {
      assert i == (i / 256) * 256 + i % 256;
      assert At(t, 256, i / 256, i % 256) == MovedFrom(s, 256, 256, i / 256, i % 256, dx, dz);
    }
  }

  lemma BytesMoved(s: seq<Byte>, t: seq<Byte>, dx: int, dz: int)
    requires |s| == |t| == BYTES && RowsMoved(s, t, SIZE, 1024, dx * 4, dz, 0, SIZE)
    ensures forall j :: 0 <= j < BYTES ==>
              t[j] == if Exposed(j / 4, dx, dz) then s[j] else s[ByteFrom(j, dx, dz)]
  {
    forall j | 0 <= j < BYTES ensures t[j] == if Exposed(j / 4, dx, dz) then s[j] else s[ByteFrom(j, dx, dz)] {
      assert j == (j / 1024) * 1024 + j % 1024;
      assert At(t, 1024, j / 1024, j % 1024) == MovedFrom(s, 256, 1024, j / 1024, j % 1024, dx * 4, dz);
      assert (j / 4) / 256 == j / 1024 && (j / 4) % 256 == (j % 1024) / 4;
    }
  }

  /** The source of byte `j` is the same channel of the texel `dx` columns and `dz` rows on. */
  lemma ByteSource(j: int, dx: int, dz: int)
    requires 0 <= j < BYTES && !Exposed(j / 4, dx, dz)
    ensures var k := ByteFrom(j, dx, dz);
            && 0 <= k < BYTES && k / 4 == TexelFrom(j / 4, dx, dz) && k % 4 == j % 4
            && (k / 4) % 256 == (j / 4) % 256 + dx && (k / 4) / 256 == (j / 4) / 256 + dz
  {
  }

  class Minimap {
    const void: Color
    const tint: Tint
    const recenterAfter: nat
    const rgba: array<Byte>
    /** The colours before slope shading. */
    const base: array<Byte>
    const topY: array<int>
    var center: Option<Col>
    var face: Face
    var stamp: int
    /** The surface the raster shows, for the proofs. */
    ghost var shown: Surface

    ghost predicate Shaped() {
      rgba.Length == BYTES && base.Length == BYTES && topY.Length == TEXELS
      && rgba != base && topY as object != rgba && topY as object != base
    }

    ghost function PictureAt(s: Surface, c: Col): Picture
      reads this`face
    {
      Picture(s, face, c.x, c.y, void, tint)
    }

    /** The three rasters are those of a whole rebuild of `p`. */
    ghost predicate Shows(p: Picture)
      requires Shaped()
      reads rgba, base, topY
    {
      && HeightsShow(p)
      && (forall j :: 0 <= j < BYTES ==> base[j] == p.Plain(j))
      && (forall j :: 0 <= j < BYTES ==> rgba[j] == p.Shaded(j))
    }

    ghost predicate HeightsShow(p: Picture)
      requires Shaped()
      reads topY
    {
      forall i :: 0 <= i < TEXELS ==> topY[i] == p.Height(i)
    }

    ghost predicate Valid()
      reads this, rgba, base, topY
    {
      Shaped() && (center.Some? ==> Shows(PictureAt(shown, center.value)))
    }

    constructor (void: Color, tint: Tint, recenterAfter: nat)
      ensures Valid() && center == None
      ensures this.void == void && this.tint == tint && this.recenterAfter == recenterAfter
      ensures fresh(rgba) && fresh(base) && fresh(topY)
    {
      this.void := void;
      this.tint := tint;
      this.recenterAfter := recenterAfter;
      rgba := new Byte[BYTES](_ => 0);
      base := new Byte[BYTES](_ => 0);
      topY := new int[TEXELS](_ => NO_HEIGHT);
      center := None;
      face := PosY;
      stamp := 0;
      shown := (f: Face, x: int, y: int) => None;
    }

    // ----- painting -----

    ghost function Held(): Content
      reads rgba, base, topY
    {
      Content(topY[..], base[..], rgba[..])
    }

    /** One texel of a painted rectangle. */
    method PaintTexel(p: Picture, u: nat, v: nat, top: Top)
      requires Shaped() && u < SIZE && v < SIZE && p.TopAt(v * 256 + u) == top
      modifies rgba, base, topY
      ensures Painted(p, old(Held()), Held(), u, v, u + 1, v + 1)
    {
      var idx := v * SIZE + u;
      topY[idx] := top.height;
      forall j | idx * 4 <= j < idx * 4 + 4 {
        rgba[j] := Channel(top.color, j - idx * 4);
      }
      forall j | idx * 4 <= j < idx * 4 + 4 {
        base[j] := Channel(top.color, j - idx * 4);
      }
      TexelPainted(p, old(Held()), Held(), u, v, idx);
    }

    /** World rows `vs0` to `vs1` of world column `u`, all in one chunk. */
    method PaintRun(p: Picture, u: int, vs0: int, vs1: int, tops: array2<Option<Top>>)
      requires Shaped() && tops.Length0 == CHUNK_SIZE && tops.Length1 == CHUNK_SIZE && p.void == void
      requires p.cx - 128 <= u < p.cx + 128 && p.cy - 128 <= vs0 <= vs1 < p.cy + 128
      requires forall v :: vs0 <= v <= vs1 ==> tops[v % 16, u % 16] == p.surface(p.face, u, v)
      modifies rgba, base, topY
      ensures Painted(p, old(Held()), Held(), u - p.cx + 128, vs0 - p.cy + 128, u - p.cx + 129, vs1 - p.cy + 129)
    {
      hide Painted;
      var ou, ov := p.cx - 128, p.cy - 128;
      var lu := u % 16;
      var tu := u - ou;
      ghost var s := Held();
      NothingPainted(p, s, tu, vs0 - ov, tu + 1, vs0 - ov);
      var v := vs0;
      while v <= vs1
        invariant vs0 <= v <= vs1 + 1
        invariant Painted(p, s, Held(), tu, vs0 - ov, tu + 1, v - ov)
      {
        var lv := v % 16;
        var top := match tops[lv, lu] case None => Top(NO_HEIGHT, void) case Some(t) => t;
        ghost var m := Held();
        PaintTexel(p, tu, v - ov, top);
        PaintedDown(p, s, m, Held(), tu, tu + 1, vs0 - ov, v - ov, v + 1 - ov);
        v := v + 1;
      }
    }

    /** The columns of one chunk that a painted rectangle covers. */
    method PaintChunk(p: Picture, us0: int, us1: int, vs0: int, vs1: int, tops: array2<Option<Top>>)
      requires Shaped() && tops.Length0 == CHUNK_SIZE && tops.Length1 == CHUNK_SIZE && p.void == void
      requires p.cx - 128 <= us0 <= us1 < p.cx + 128 && p.cy - 128 <= vs0 <= vs1 < p.cy + 128
      requires forall u, v :: us0 <= u <= us1 && vs0 <= v <= vs1 ==> tops[v % 16, u % 16] == p.surface(p.face, u, v)
      modifies rgba, base, topY
      ensures Painted(p, old(Held()), Held(), us0 - p.cx + 128, vs0 - p.cy + 128, us1 - p.cx + 129, vs1 - p.cy + 129)
    {
      hide Painted;
      var ou, ov := p.cx - 128, p.cy - 128;
      ghost var s := Held();
      NothingPainted(p, s, us0 - ou, vs0 - ov, us0 - ou, vs1 + 1 - ov);
      var u := us0;
      while u <= us1
        invariant us0 <= u <= us1 + 1
        invariant Painted(p, s, Held(), us0 - ou, vs0 - ov, u - ou, vs1 + 1 - ov)
      {
        ghost var m := Held();
        PaintRun(p, u, vs0, vs1, tops);
        PaintedAcross(p, s, m, Held(), us0 - ou, u - ou, u + 1 - ou, vs0 - ov, vs1 + 1 - ov);
        u := u + 1;
      }
    }

    /** Paint texels `[u0, u1) x [v0, v1)` chunk by chunk. */
    method PaintRect(world: World, col: Col, u0: nat, v0: nat, u1: nat, v1: nat)
      requires Shaped() && u1 <= SIZE && v1 <= SIZE
      modifies rgba, base, topY
      ensures Painted(PictureAt(world.surface, col), old(Held()), Held(), u0, v0, u1, v1)
    {
      hide Painted;
      ghost var p := PictureAt(world.surface, col);
      ghost var s := Held();
      if u0 >= u1 || v0 >= v1 {
        NothingPainted(p, s, u0, v0, u1, v1);
        return;
      }
      var ou, ov := col.x - SIZE / 2, col.y - SIZE / 2;
      var u0w, u1w := ou + u0, ou + u1 - 1;
      var tops := new Option<Top>[CHUNK_SIZE, CHUNK_SIZE]((a, b) => None);
      NothingPainted(p, s, u0, v0, u0, v1);
      var cu := u0w / CHUNK_SIZE;
      while cu <= u1w / CHUNK_SIZE
        invariant u0w / 16 <= cu <= u1w / 16 + 1
        invariant Painted(p, s, Held(), u0, v0, Upto(u0, u1, cu, ou), v1)
      {
        ghost var m := Held();
        PaintChunkColumn(world, col, u0, v0, u1, v1, cu, tops);
        PaintedAcross(p, s, m, Held(), u0, Upto(u0, u1, cu, ou), Upto(u0, u1, cu + 1, ou), v0, v1);
        cu := cu + 1;
      }
    }

    /** The chunks of chunk column `cu` that the rectangle meets. */
    method PaintChunkColumn(world: World, col: Col, u0: nat, v0: nat, u1: nat, v1: nat, cu: int,
        tops: array2<Option<Top>>)
      requires Shaped() && u0 < u1 <= SIZE && v0 < v1 <= SIZE
      requires tops.Length0 == CHUNK_SIZE && tops.Length1 == CHUNK_SIZE
      requires (col.x - 128 + u0) / 16 <= cu <= (col.x - 128 + u1 - 1) / 16
      modifies rgba, base, topY, tops
      ensures Painted(PictureAt(world.surface, col), old(Held()), Held(),
                      Upto(u0, u1, cu, col.x - 128), v0, Upto(u0, u1, cu + 1, col.x - 128), v1)
    {
      hide Painted;
      ghost var p := PictureAt(world.surface, col);
      var ou, ov := col.x - SIZE / 2, col.y - SIZE / 2;
      var v0w, v1w := ov + v0, ov + v1 - 1;
      ghost var s, a, b := Held(), Upto(u0, u1, cu, ou), Upto(u0, u1, cu + 1, ou);
      NothingPainted(p, s, a, v0, b, v0);
      var cv := v0w / CHUNK_SIZE;
      while cv <= v1w / CHUNK_SIZE
        invariant v0w / 16 <= cv <= v1w / 16 + 1
        invariant Painted(p, s, Held(), a, v0, b, Upto(v0, v1, cv, ov))
      {
        ghost var m := Held();
        PaintMet(world, col, u0, v0, u1, v1, cu, cv, tops);
        PaintedDown(p, s, m, Held(), a, b, v0, Upto(v0, v1, cv, ov), Upto(v0, v1, cv + 1, ov));
        cv := cv + 1;
      }
    }

    /** What chunk (`cu`, `cv`) and the rectangle have in common. */
    method PaintMet(world: World, col: Col, u0: nat, v0: nat, u1: nat, v1: nat, cu: int, cv: int,
        tops: array2<Option<Top>>)
      requires Shaped() && u0 < u1 <= SIZE && v0 < v1 <= SIZE
      requires tops.Length0 == CHUNK_SIZE && tops.Length1 == CHUNK_SIZE
      requires (col.x - 128 + u0) / 16 <= cu <= (col.x - 128 + u1 - 1) / 16
      requires (col.y - 128 + v0) / 16 <= cv <= (col.y - 128 + v1 - 1) / 16
      modifies rgba, base, topY, tops
      ensures Painted(PictureAt(world.surface, col), old(Held()), Held(),
                      Upto(u0, u1, cu, col.x - 128), Upto(v0, v1, cv, col.y - 128),
                      Upto(u0, u1, cu + 1, col.x - 128), Upto(v0, v1, cv + 1, col.y - 128))
    {
      hide Painted, Upto;
      var p := Picture(world.surface, face, col.x, col.y, void, tint);
      var ou, ov := col.x - SIZE / 2, col.y - SIZE / 2;
      var u0w, v0w, u1w, v1w := ou + u0, ov + v0, ou + u1 - 1, ov + v1 - 1;
      var us0 := if u0w > cu * CHUNK_SIZE then u0w else cu * CHUNK_SIZE;
      var us1 := if u1w < (cu + 1) * CHUNK_SIZE - 1 then u1w else (cu + 1) * CHUNK_SIZE - 1;
      var vs0 := if v0w > cv * CHUNK_SIZE then v0w else cv * CHUNK_SIZE;
      var vs1 := if v1w < (cv + 1) * CHUNK_SIZE - 1 then v1w else (cv + 1) * CHUNK_SIZE - 1;
      MeetsChunk(u0, u1, cu, ou, us0, us1);
      MeetsChunk(v0, v1, cv, ov, vs0, vs1);
      TopSolids(world, cu, cv, us0 % 16, us1 % 16 + 1, vs0 % 16, vs1 % 16 + 1, tops);
      forall u, v | us0 <= u <= us1 && vs0 <= v <= vs1
        ensures tops[v % 16, u % 16] == p.surface(p.face, u, v)
      {
        InChunk(u, us0, us1, cu);
        InChunk(v, vs0, vs1, cv);
      }
      PaintChunk(p, us0, us1, vs0, vs1, tops);
    }

    /** The world's answer for chunk column (`cu`, `cv`): it fills the asked part of the scratch only. */
    method TopSolids(world: World, cu: int, cv: int, lu0: nat, lu1: nat, lv0: nat, lv1: nat, tops: array2<Option<Top>>)
      requires tops.Length0 == CHUNK_SIZE && tops.Length1 == CHUNK_SIZE
      requires lu1 <= CHUNK_SIZE && lv1 <= CHUNK_SIZE
      modifies tops
      ensures forall lv, lu :: lv0 <= lv < lv1 && lu0 <= lu < lu1 ==>
                tops[lv, lu] == world.surface(face, cu * 16 + lu, cv * 16 + lv)
    {
      forall lv, lu | lv0 <= lv < lv1 && lu0 <= lu < lu1 {
        tops[lv, lu] := world.surface(face, cu * 16 + lu, cv * 16 + lv);
      }
    }

    // ----- shading -----

    /** Byte `j` shaded from colour `b` by the heights the raster holds. */
    ghost function Tone(j: int, b: Byte): Byte
      requires Shaped() && 0 <= j < BYTES
      reads this, topY
    {
      var i := j / 4;
      ShadeByte(tint, topY[i],
                if i % 256 > 0 then topY[i - 1] else NO_HEIGHT,
                if i / 256 > 0 then topY[i - 256] else NO_HEIGHT,
                j % 4, b)
    }

    method ShadeTexel(u: nat, v: nat)
      requires Shaped() && u < SIZE && v < SIZE
      modifies rgba
      ensures forall j :: 0 <= j < BYTES ==>
                rgba[j] == if j / 4 == v * 256 + u then Tone(j, old(rgba[j])) else old(rgba[j])
    {
      var idx := v * SIZE + u;
      var h := topY[idx];
      if h == NO_HEIGHT {
        return;
      }
      var nx := if u > 0 then topY[idx - 1] else NO_HEIGHT;
      var nz := if v > 0 then topY[idx - SIZE] else NO_HEIGHT;
      var neighbour := if nx > nz then nx else nz;
      if neighbour == NO_HEIGHT || h == neighbour {
        return;
      }
      var brighter := h > neighbour;
      var k := 0;
      while k < 3
        invariant 0 <= k <= 3
        invariant forall j :: 0 <= j < BYTES ==>
                    rgba[j] == if idx * 4 <= j < idx * 4 + k then Tone(j, old(rgba[j])) else old(rgba[j])
      {
        var c := rgba[idx * 4 + k];
        rgba[idx * 4 + k] := if brighter then tint.brighten(c) else tint.darken(c);
        k := k + 1;
      }
    }

    method ShadeRow(u0: nat, u1: nat, v: nat)
      requires Shaped() && u1 <= SIZE && v < SIZE
      modifies rgba
      ensures forall j :: 0 <= j < BYTES ==>
                rgba[j] == if InRect(j / 4, u0, v, u1, v + 1) then Tone(j, old(rgba[j])) else old(rgba[j])
    {
      var u := u0;
      while u < u1
        invariant u0 <= u && (u <= u1 || u == u0)
        invariant forall j :: 0 <= j < BYTES ==>
                    rgba[j] == if InRect(j / 4, u0, v, u, v + 1) then Tone(j, old(rgba[j])) else old(rgba[j])
      {
        ShadeTexel(u, v);
        u := u + 1;
      }
    }

    method ShadeRect(u0: nat, v0: nat, u1: nat, v1: nat)
      requires Shaped() && u1 <= SIZE && v1 <= SIZE
      modifies rgba
      ensures forall j :: 0 <= j < BYTES ==>
                rgba[j] == if InRect(j / 4, u0, v0, u1, v1) then Tone(j, old(rgba[j])) else old(rgba[j])
    {
      var v := v0;
      while v < v1
        invariant v0 <= v && (v <= v1 || v == v0)
        invariant forall j :: 0 <= j < BYTES ==>
                    rgba[j] == if InRect(j / 4, u0, v0, u1, v) then Tone(j, old(rgba[j])) else old(rgba[j])
      {
        ShadeRow(u0, u1, v);
        v := v + 1;
      }
    }

    /** Put texels back to their unshaded colours, a row copy at a time. */
    method RestoreUnshaded(u0: nat, v0: nat, u1: nat, v1: nat)
      requires Shaped() && u0 <= u1 <= SIZE && v1 <= SIZE
      modifies rgba
      ensures forall j :: 0 <= j < BYTES ==>
                rgba[j] == if InRect(j / 4, u0, v0, u1, v1) then base[j] else old(rgba[j])
    {
      var v := v0;
      while v < v1
        invariant v0 <= v && (v <= v1 || v == v0)
        invariant forall j :: 0 <= j < BYTES ==>
                    rgba[j] == if InRect(j / 4, u0, v0, u1, v) then base[j] else old(rgba[j])
      {
        var a, b := (v * SIZE + u0) * 4, (v * SIZE + u1) * 4;
        forall j | a <= j < b {
          rgba[j] := base[j];
        }
        v := v + 1;
      }
    }

    // ----- rebuilding -----

    method RebuildFull(world: World, col: Col)
      requires Shaped()
      modifies rgba, base, topY
      ensures Shows(PictureAt(world.surface, col))
    {
      ghost var p := PictureAt(world.surface, col);
      PaintRect(world, col, 0, 0, SIZE, SIZE);
      assert HeightsShow(p);
      label Plain:
      ShadeRect(0, 0, SIZE, SIZE);
      forall j | 0 <= j < BYTES ensures rgba[j] == p.Shaded(j) {
        assert InRect(j / 4, 0, 0, SIZE, SIZE);
        assert old@Plain(rgba[j]) == p.Plain(j);
      }
    }

    /** The three in-place moves. */
    method ShiftAll(dx: int, dz: int)
      requires Shaped() && -SIZE < dx < SIZE && -SIZE < dz < SIZE
      modifies rgba, base, topY
      ensures forall i :: 0 <= i < TEXELS ==>
                topY[i] == if Exposed(i, dx, dz) then old(topY[i]) else old(topY[TexelFrom(i, dx, dz)])
      ensures forall j :: 0 <= j < BYTES ==>
                rgba[j] == if Exposed(j / 4, dx, dz) then old(rgba[j]) else old(rgba[ByteFrom(j, dx, dz)])
      ensures forall j :: 0 <= j < BYTES ==>
                base[j] == if Exposed(j / 4, dx, dz) then old(base[j]) else old(base[ByteFrom(j, dx, dz)])
    {
      ghost var s := Held();
      Shift(topY, SIZE, 1, dx, dz);
      TexelsMoved(s.topY, topY[..], dx, dz);
      Shift(rgba, SIZE, 4, dx, dz);
      BytesMoved(s.rgba, rgba[..], dx, dz);
      Shift(base, SIZE, 4, dx, dz);
      BytesMoved(s.base, base[..], dx, dz);
      forall j | 0 <= j < BYTES && !Exposed(j / 4, dx, dz) ensures 0 <= ByteFrom(j, dx, dz) < BYTES {
        ByteSource(j, dx, dz);
      }
    }

    /** Repaint the strips that moved in. */
    method PaintExposed(world: World, col: Col, dx: int, dz: int)
      requires Shaped() && -SIZE < dx < SIZE && -SIZE < dz < SIZE
      modifies rgba, base, topY
      ensures var p := PictureAt(world.surface, col);
              && (forall i :: 0 <= i < TEXELS ==> topY[i] == if Exposed(i, dx, dz) then p.Height(i) else old(topY[i]))
              && (forall j :: 0 <= j < BYTES ==> base[j] == if Exposed(j / 4, dx, dz) then p.Plain(j) else old(base[j]))
              && (forall j :: 0 <= j < BYTES ==> rgba[j] == if Exposed(j / 4, dx, dz) then p.Plain(j) else old(rgba[j]))
    {
      ghost var p := PictureAt(world.surface, col);
      ghost var s := Held();
      ghost var m := s;
      if dx > 0 {
        PaintRect(world, col, SIZE - dx, 0, SIZE, SIZE);
      } else if dx < 0 {
        PaintRect(world, col, 0, 0, -dx, SIZE);
      }
      m := Held();
      if dz > 0 {
        PaintRect(world, col, 0, SIZE - dz, SIZE, SIZE);
      } else if dz < 0 {
        PaintRect(world, col, 0, 0, SIZE, -dz);
      }
    }

    /** Shade the strips, their common corner once. */
    method ShadeExposed(dx: int, dz: int)
      requires Shaped() && -SIZE < dx < SIZE && -SIZE < dz < SIZE
      modifies rgba
      ensures forall j :: 0 <= j < BYTES ==>
                rgba[j] == if Exposed(j / 4, dx, dz) then Tone(j, old(rgba[j])) else old(rgba[j])
    {
      var vLo, vHi := KeptRange(SIZE, dz);
      if dx > 0 {
        ShadeRect(SIZE - dx, vLo, SIZE, vHi);
      } else if dx < 0 {
        ShadeRect(0, vLo, -dx, vHi);
      }
      if dz > 0 {
        ShadeRect(0, SIZE - dz, SIZE, SIZE);
      } else if dz < 0 {
        ShadeRect(0, 0, SIZE, -dz);
      }
    }

    /** Shade the kept edges again, from their unshaded colours. */
    method RefreshEdges(dx: int, dz: int)
      requires Shaped() && -SIZE < dx < SIZE && -SIZE < dz < SIZE
      modifies rgba
      ensures forall j :: 0 <= j < BYTES ==>
                rgba[j] == if OnEdge(j / 4, dx, dz) then Tone(j, base[j]) else old(rgba[j])
    {
      var uLo, uHi := KeptRange(SIZE, dx);
      var vLo, vHi := KeptRange(SIZE, dz);
      if dx != 0 {
        var u := if dx > 0 then 0 else -dx;
        RestoreUnshaded(u, vLo, u + 1, vHi);
        ShadeRect(u, vLo, u + 1, vHi);
      }
      if dz != 0 {
        var v := if dz > 0 then 0 else -dz;
        RestoreUnshaded(uLo, v, uHi, v + 1);
        ShadeRect(uLo, v, uHi, v + 1);
      }
    }

    method KeptRange(sz: nat, delta: int) returns (lo: nat, hi: nat)
      requires 0 < sz + delta && 0 < sz - delta
      ensures lo == (if delta < 0 then -delta else 0) && hi == (if delta > 0 then sz - delta else sz)
    {
      if delta > 0 {
        lo, hi := 0, sz - delta;
      } else if delta < 0 {
        lo, hi := -delta, sz;
      } else {
        lo, hi := 0, sz;
      }
    }

    /** The rasters moved along, and what moved in painted unshaded. */
    method MoveAndPaint(world: World, col: Col, dx: int, dz: int, ghost q: Picture, ghost p: Picture)
      requires Shaped() && -SIZE < dx < SIZE && -SIZE < dz < SIZE
      requires Shows(q) && Patchwork(q, PictureAt(world.surface, col), p, dx, dz)
      modifies rgba, base, topY
      ensures HeightsShow(p) && forall j :: 0 <= j < BYTES ==> base[j] == p.Plain(j)
      ensures forall j :: 0 <= j < BYTES && !Exposed(j / 4, dx, dz) ==> 0 <= ByteFrom(j, dx, dz) < BYTES
      ensures forall j :: 0 <= j < BYTES ==>
        rgba[j] == if Exposed(j / 4, dx, dz) then p.Plain(j) else q.Shaded(ByteFrom(j, dx, dz))
    {
      ghost var n := PictureAt(world.surface, col);
      ShiftAll(dx, dz);
      PaintExposed(world, col, dx, dz);
      hide Patchwork, TexelFrom, ByteFrom, Exposed;
      forall i | 0 <= i < TEXELS ensures topY[i] == p.Height(i) {
        TexelSource(q, n, p, i, dx, dz);
      }
      forall j | 0 <= j < BYTES
        ensures base[j] == p.Plain(j) && (!Exposed(j / 4, dx, dz) ==> 0 <= ByteFrom(j, dx, dz) < BYTES)
        ensures rgba[j] == if Exposed(j / 4, dx, dz) then p.Plain(j) else q.Shaded(ByteFrom(j, dx, dz))
      {
        PlainSource(q, n, p, j, dx, dz);
      }
    }

    /** Shift the raster from `prev` to `col` and repaint what moved in: it then shows the old surface
        on the columns both positions cover, and the current one elsewhere, just as a whole rebuild
        of that patchwork would. */
    method RebuildShift(world: World, prev: Col, col: Col)
      requires Shaped() && Shows(PictureAt(shown, prev))
      requires -SIZE < col.x - prev.x < SIZE && -SIZE < col.y - prev.y < SIZE
      modifies rgba, base, topY
      ensures Shows(PictureAt(Patched(shown, world.surface, prev, col), col))
    {
      var dx, dz := col.x - prev.x, col.y - prev.y;
      ghost var q := PictureAt(shown, prev);
      ghost var n := PictureAt(world.surface, col);
      ghost var p := PictureAt(Patched(shown, world.surface, prev, col), col);
      MoveAndPaint(world, col, dx, dz, q, p);
      ShadeExposed(dx, dz);
      RefreshEdges(dx, dz);
      hide Patchwork, TexelFrom, ByteFrom, Exposed, OnEdge;
      forall j | 0 <= j < BYTES ensures rgba[j] == p.Shaded(j) {
        assert Tone(j, p.Plain(j)) == p.Shaded(j);
        if !Exposed(j / 4, dx, dz) && !OnEdge(j / 4, dx, dz) {
          ShadedSource(q, n, p, j, dx, dz);
        }
      }
    }

    /** Whether a rebuild is due: never built, another face, the throttle, or far enough away. */
    predicate Due(face: Face, col: Col, intervalElapsed: bool)
      reads this`center, this`face
    {
      match center
      case None => true
      case Some(c) =>
        this.face != face || intervalElapsed || Chess(col, c) >= recenterAfter
    }

    /** No rebuild is due exactly while the throttle lasts, the face stays, and the centre is nearer than
        the recentring distance both ways. */
    lemma DueExactly(face: Face, col: Col, intervalElapsed: bool)
      ensures !Due(face, col, intervalElapsed) <==>
        && center.Some? && this.face == face && !intervalElapsed
        && col.x - center.value.x < recenterAfter && center.value.x - col.x < recenterAfter
        && col.y - center.value.y < recenterAfter && center.value.y - col.y < recenterAfter
    {
    }

    /** Nothing was built yet, or the rasters are those of a whole rebuild of the world as it is. */
    ghost predicate UpToDate(world: World)
      requires Shaped()
      reads this, rgba, base, topY
    {
      center.Some? ==> Shows(PictureAt(world.surface, center.value))
    }

    /** What a rebuild shifts rather than repaints. */
    predicate Shifts(face: Face, col: Col, intervalElapsed: bool)
      reads this`center, this`face
    {
      center.Some? && !intervalElapsed && this.face == face && 0 < Chess(col, center.value) < SIZE
    }

    /** What it leaves alone: an interval rebuild of an unchanged stamp under a still player. */
    predicate Skips(world: World, face: Face, col: Col, intervalElapsed: bool)
      reads this`center, this`face, this`stamp
    {
      center == Some(col) && intervalElapsed && this.face == face && stamp == SurfaceStamp(world, face, col)
    }

    /** A rebuild shifts exactly when the centre moved before the throttle, and some column shown is shown again. */
    lemma ShiftsExactly(face: Face, col: Col, intervalElapsed: bool)
      ensures Shifts(face, col, intervalElapsed) <==>
        && center.Some? && this.face == face && !intervalElapsed && col != center.value
        && exists x, y :: Shared(center.value, col, x, y)
    {
      if center.Some? && Chess(col, center.value) < SIZE {
        var c := center.value;
        assert Shared(c, col, (if c.x > col.x then c.x else col.x) - 128, (if c.y > col.y then c.y else col.y) - 128);
      }
    }

    /** With honest stamps a rebuild that is left out would have changed nothing: rasters current when their
        stamp was taken are current now. */
    lemma SkippedIsUpToDate(before: World, world: World, face: Face, col: Col, intervalElapsed: bool)
      requires Shaped() && UpToDate(before) && Skips(world, face, col, intervalElapsed)
      requires stamp == SurfaceStamp(before, face, col) && HonestStamps(before, world)
      ensures UpToDate(world)
    {
      hide SurfaceStamp, HonestStamps, Picture.TopAt, Channel, ShadeByte;
      var p, q := PictureAt(before.surface, col), PictureAt(world.surface, col);
      forall i | 0 <= i < TEXELS ensures p.TopAt(i) == q.TopAt(i) {
        SameStampSamePicture(before, world, face, col, void, tint, i);
      }
    }

    /** A shift leaves the rasters current exactly when what they showed on the kept texels is what the
        surface is now; so always over a surface they already showed. */
    method ShiftTo(world: World, prev: Col, col: Col)
      requires Shaped() && Shows(PictureAt(shown, prev))
      requires -SIZE < col.x - prev.x < SIZE && -SIZE < col.y - prev.y < SIZE
      modifies this`shown, rgba, base, topY
      ensures shown == Patched(old(shown), world.surface, prev, col) && Shows(PictureAt(shown, col))
      ensures old(Shows(PictureAt(world.surface, prev))) ==> Shows(PictureAt(world.surface, col))
      ensures Shows(PictureAt(world.surface, col)) <==>
        KeptAgree(old(PictureAt(shown, prev)), PictureAt(world.surface, col), col.x - prev.x, col.y - prev.y)
    {
      hide Minimap.Shows, Minimap.HeightsShow, Portrays, Patchwork, KeptAgree, Exposed, TexelFrom, Patched,
        Minimap.Held;
      ghost var dx, dz := col.x - prev.x, col.y - prev.y;
      ghost var before, was := Held(), shown;
      ghost var q, c, n := PictureAt(shown, prev), PictureAt(world.surface, prev), PictureAt(world.surface, col);
      ghost var same := Shows(c);
      ShownIsPortrayed(q);
      ShownIsPortrayed(c);
      PatchedIsPatchwork(was, world.surface, prev, col);
      RebuildShift(world, prev, col);
      shown := Patched(shown, world.surface, prev, col);
      ghost var p := PictureAt(shown, col);
      ShownIsPortrayed(p);
      ShownIsPortrayed(n);
      CurrentExactly(Held(), q, n, p, dx, dz);
      if same {
        CurrentAfterShift(before, Held(), q, c, n, p, dx, dz);
      }
    }

    lemma ShownIsPortrayed(p: Picture)
      requires Shaped()
      ensures Held().Shaped() && (Shows(p) <==> Portrays(Held(), p))
    {
    }

    lemma PatchedIsPatchwork(was: Surface, now: Surface, prev: Col, col: Col)
      ensures Patchwork(PictureAt(was, prev), PictureAt(now, col), PictureAt(Patched(was, now, prev, col), col),
                        col.x - prev.x, col.y - prev.y)
      ensures Patchwork(PictureAt(now, prev), PictureAt(now, col), PictureAt(now, col), col.x - prev.x, col.y - prev.y)
    {
    }

    method Rebuild(world: World, face: Face, col: Col, intervalElapsed: bool) returns (painted: Option<bool>)
      requires Valid()
      modifies this, rgba, base, topY
      ensures Valid()
      ensures painted.None? <==> !old(Due(face, col, intervalElapsed))
      ensures painted == Some(false) <==>
              && old(center) == Some(col) && old(this.face) == face && intervalElapsed
              && old(stamp) == SurfaceStamp(world, face, col)
      ensures painted == Some(true) <==>
              old(Due(face, col, intervalElapsed)) && !old(Skips(world, face, col, intervalElapsed))
      ensures painted != Some(true) ==> unchanged(this, rgba, base, topY)
      ensures painted == Some(true) ==>
                center == Some(col) && this.face == face && stamp == SurfaceStamp(world, face, col)
                && shown == if old(Shifts(face, col, intervalElapsed))
                            then Patched(old(shown), world.surface, old(center).value, col) else world.surface
      ensures old(UpToDate(world)) ==> UpToDate(world)
      ensures painted == Some(true) && !old(Shifts(face, col, intervalElapsed)) ==> UpToDate(world)
      ensures painted == Some(true) && old(Shifts(face, col, intervalElapsed)) ==>
        var prev := old(center).value;
        UpToDate(world) <==>
          KeptAgree(old(PictureAt(shown, center.value)), PictureAt(world.surface, col), col.x - prev.x, col.y - prev.y)
    {
      hide Minimap.Shows, Minimap.HeightsShow, KeptAgree, Patched, SurfaceStamp;
      if !Due(face, col, intervalElapsed) {
        return None;
      }
      var faceChanged := center.Some? && this.face != face;
      this.face := face;
      var newStamp := SurfaceStamp(world, face, col);
      if center.Some? && !intervalElapsed && !faceChanged {
        var prev := center.value;
        var d := Chess(col, prev);
        if 0 < d < SIZE {
          ShiftTo(world, prev, col);
        } else {
          RebuildFull(world, col);
          shown := world.surface;
        }
      } else if center == Some(col) && !faceChanged && newStamp == stamp {
        return Some(false);
      } else {
        RebuildFull(world, col);
        shown := world.surface;
      }
      center := Some(col);
      stamp := newStamp;
      return Some(true);
    }
  }

  // ----- where the texels of a shifted raster come from -----

  /** `p` is the patchwork of what `q` showed before a move by (`dx`, `dz`) and what `n` shows now. */
  ghost predicate Patchwork(q: Picture, n: Picture, p: Picture, dx: int, dz: int) {
    && n.face == p.face == q.face && n.void == p.void == q.void && n.tint == p.tint == q.tint
    && n.cx == p.cx == q.cx + dx && n.cy == p.cy == q.cy + dz
    && forall x, y :: p.surface(p.face, x, y) ==
                      if Shared(Col(q.cx, q.cy), Col(p.cx, p.cy), x, y) then q.surface(p.face, x, y)
                      else n.surface(p.face, x, y)
  }

  /** What `q` showed on the texels a move by (`dx`, `dz`) keeps is what `n` shows there. */
  ghost predicate KeptAgree(q: Picture, n: Picture, dx: int, dz: int) {
    forall i :: 0 <= i < TEXELS && !Exposed(i, dx, dz) ==> q.TopAt(TexelFrom(i, dx, dz)) == n.TopAt(i)
  }

  lemma TexelSource(q: Picture, n: Picture, p: Picture, i: int, dx: int, dz: int)
    requires Patchwork(q, n, p, dx, dz) && 0 <= i < TEXELS
    ensures p.TopAt(i) == if Exposed(i, dx, dz) then n.TopAt(i) else q.TopAt(TexelFrom(i, dx, dz))
    ensures !Exposed(i, dx, dz) ==> 0 <= TexelFrom(i, dx, dz) < TEXELS
  {
    if !Exposed(i, dx, dz) {
      var k := TexelFrom(i, dx, dz);
      assert k % 256 == i % 256 + dx && k / 256 == i / 256 + dz;
    }
  }

  lemma PlainSource(q: Picture, n: Picture, p: Picture, j: int, dx: int, dz: int)
    requires Patchwork(q, n, p, dx, dz) && 0 <= j < BYTES
    ensures p.Plain(j) == if Exposed(j / 4, dx, dz) then n.Plain(j) else q.Plain(ByteFrom(j, dx, dz))
    ensures !Exposed(j / 4, dx, dz) ==> 0 <= ByteFrom(j, dx, dz) < BYTES
  {
    TexelSource(q, n, p, j / 4, dx, dz);
    if !Exposed(j / 4, dx, dz) {
      ByteSource(j, dx, dz);
    }
  }

  /** Away from the edges the west and north neighbours came along, so the shading still stands. */
  lemma ShadedSource(q: Picture, n: Picture, p: Picture, j: int, dx: int, dz: int)
    requires Patchwork(q, n, p, dx, dz) && 0 <= j < BYTES
    requires !Exposed(j / 4, dx, dz) && !OnEdge(j / 4, dx, dz)
    ensures p.Shaded(j) == q.Shaded(ByteFrom(j, dx, dz))
    ensures 0 <= ByteFrom(j, dx, dz) < BYTES
  {
    hide Patchwork, Exposed, OnEdge, TexelFrom, ByteFrom;
    var i, k := j / 4, ByteFrom(j, dx, dz);
    PlainSource(q, n, p, j, dx, dz);
    ByteSource(j, dx, dz);
    NeighboursSource(q, n, p, i, dx, dz);
    hide *;
    assert k / 4 == TexelFrom(i, dx, dz);
    SameTone(p, j, q, k);
  }

  /** Off the edges a kept texel has the height, and the west and north neighbours, of its source. */
  lemma NeighboursSource(q: Picture, n: Picture, p: Picture, i: int, dx: int, dz: int)
    requires Patchwork(q, n, p, dx, dz) && 0 <= i < TEXELS && !Exposed(i, dx, dz) && !OnEdge(i, dx, dz)
    ensures var k := TexelFrom(i, dx, dz);
            && p.tint == q.tint && p.Height(i) == q.Height(k)
            && (i % 256 > 0 <==> k % 256 > 0) && (i / 256 > 0 <==> k / 256 > 0)
            && (i % 256 > 0 ==> p.Height(i - 1) == q.Height(k - 1))
            && (i / 256 > 0 ==> p.Height(i - 256) == q.Height(k - 256))
  {
    hide *;
    HeightSource(q, n, p, i, dx, dz);
    NeighboursAlong(i, dx, dz);
    NeighboursFrom(i, dx, dz);
    if i % 256 > 0 {
      HeightSource(q, n, p, i - 1, dx, dz);
    }
    if i / 256 > 0 {
      HeightSource(q, n, p, i - 256, dx, dz);
    }
  }

  lemma HeightSource(q: Picture, n: Picture, p: Picture, i: int, dx: int, dz: int)
    requires Patchwork(q, n, p, dx, dz) && 0 <= i < TEXELS && !Exposed(i, dx, dz)
    ensures p.Height(i) == q.Height(TexelFrom(i, dx, dz)) && p.tint == q.tint
  {
    TexelSource(q, n, p, i, dx, dz);
  }

  /** The source of a neighbour is the neighbour of the source. */
  lemma NeighboursFrom(i: int, dx: int, dz: int)
    requires 0 <= i < TEXELS && !Exposed(i, dx, dz)
    ensures var k := TexelFrom(i, dx, dz);
            && k % 256 == i % 256 + dx && k / 256 == i / 256 + dz
            && (i % 256 > 0 ==> TexelFrom(i - 1, dx, dz) == k - 1)
            && (i / 256 > 0 ==> TexelFrom(i - 256, dx, dz) == k - 256)
  {
  }

  lemma SameTone(p: Picture, j: int, q: Picture, k: int)
    requires p.tint == q.tint && p.Plain(j) == q.Plain(k) && j % 4 == k % 4
    requires p.Height(j / 4) == q.Height(k / 4)
    requires (j / 4) % 256 > 0 <==> (k / 4) % 256 > 0
    requires (j / 4) / 256 > 0 <==> (k / 4) / 256 > 0
    requires (j / 4) % 256 > 0 ==> p.Height(j / 4 - 1) == q.Height(k / 4 - 1)
    requires (j / 4) / 256 > 0 ==> p.Height(j / 4 - 256) == q.Height(k / 4 - 256)
    ensures p.Shaded(j) == q.Shaded(k)
  {
  }

  /** Off the edges a kept texel keeps its west and north neighbours, or keeps having none. */
  lemma NeighboursAlong(i: int, dx: int, dz: int)
    requires 0 <= i < TEXELS && !Exposed(i, dx, dz) && !OnEdge(i, dx, dz)
    ensures i % 256 > 0 <==> i % 256 + dx > 0
    ensures i / 256 > 0 <==> i / 256 + dz > 0
    ensures i % 256 > 0 ==> !Exposed(i - 1, dx, dz)
    ensures i / 256 > 0 ==> !Exposed(i - 256, dx, dz)
  {
  }

  // ----- rebuilding over one surface -----

  /** `c` holds what a whole rebuild of `p` paints and shades. */
  ghost predicate Portrays(c: Content, p: Picture)
    requires c.Shaped()
  {
    && (forall i :: 0 <= i < TEXELS ==> c.topY[i] == p.Height(i))
    && (forall j :: 0 <= j < BYTES ==> c.base[j] == p.Plain(j))
    && (forall j :: 0 <= j < BYTES ==> c.rgba[j] == p.Shaded(j))
  }

  /** One raster portrays two pictures only if they agree texel by texel. */
  lemma SameTops(c: Content, p: Picture, q: Picture)
    requires c.Shaped() && Portrays(c, p) && Portrays(c, q)
    ensures forall i :: 0 <= i < TEXELS ==> p.TopAt(i) == q.TopAt(i)
  {
    hide Picture.TopAt, Channel;
    forall i | 0 <= i < TEXELS ensures p.TopAt(i) == q.TopAt(i) {
      assert c.topY[i] == p.Height(i) == q.Height(i);
      forall k | 0 <= k < 4 ensures Channel(p.TopAt(i).color, k) == Channel(q.TopAt(i).color, k) {
        var j := i * 4 + k;
        assert j / 4 == i && j % 4 == k;
        assert c.base[j] == p.Plain(j) == q.Plain(j);
      }
      SameChannels(p.TopAt(i).color, q.TopAt(i).color);
    }
  }

  lemma SameChannels(a: Color, b: Color)
    requires forall k :: 0 <= k < 4 ==> Channel(a, k) == Channel(b, k)
    ensures a == b
  {
    assert Channel(a, 0) == Channel(b, 0) && Channel(a, 1) == Channel(b, 1);
    assert Channel(a, 2) == Channel(b, 2) && Channel(a, 3) == Channel(b, 3);
  }

  lemma SamePicture(c: Content, p: Picture, q: Picture)
    requires c.Shaped() && Portrays(c, p) && p.tint == q.tint
    requires forall i :: 0 <= i < TEXELS ==> p.TopAt(i) == q.TopAt(i)
    ensures Portrays(c, q)
  {
    hide Picture.TopAt, Channel, Picture.Shaded;
    forall j | 0 <= j < BYTES ensures c.rgba[j] == q.Shaded(j) {
      assert p.TopAt(j / 4) == q.TopAt(j / 4);
      assert (j / 4) % 256 > 0 ==> p.TopAt(j / 4 - 1) == q.TopAt(j / 4 - 1);
      assert (j / 4) / 256 > 0 ==> p.TopAt(j / 4 - 256) == q.TopAt(j / 4 - 256);
      SameTone(p, j, q, j);
    }
  }

  /** A raster that showed the current surface `c` still does after a shift. */
  lemma CurrentAfterShift(
    before: Content, after: Content, q: Picture, c: Picture, n: Picture, p: Picture, dx: int, dz: int)
    requires before.Shaped() && Portrays(before, q) && Portrays(before, c) && after.Shaped() && Portrays(after, p)
    requires Patchwork(q, n, p, dx, dz) && Patchwork(c, n, n, dx, dz)
    ensures Portrays(after, n)
  {
    SameTops(before, q, c);
    StillCurrent(q, c, n, p, dx, dz);
    SamePicture(after, p, n);
  }

  /** A patchwork of what `q` showed and what `n` shows is `n` exactly when `q` agreed, on the texels
      kept, with what `n` now has there. */
  lemma PatchworkIsCurrent(q: Picture, n: Picture, p: Picture, dx: int, dz: int)
    requires Patchwork(q, n, p, dx, dz)
    ensures (forall i :: 0 <= i < TEXELS ==> p.TopAt(i) == n.TopAt(i)) <==> KeptAgree(q, n, dx, dz)
  {
    forall i | 0 <= i < TEXELS
      ensures p.TopAt(i) == if Exposed(i, dx, dz) then n.TopAt(i) else q.TopAt(TexelFrom(i, dx, dz))
    {
      TexelSource(q, n, p, i, dx, dz);
    }
  }

  /** A raster that portrays the patchwork portrays the current surface exactly then. */
  lemma CurrentExactly(after: Content, q: Picture, n: Picture, p: Picture, dx: int, dz: int)
    requires after.Shaped() && Portrays(after, p) && Patchwork(q, n, p, dx, dz)
    ensures Portrays(after, n) <==> KeptAgree(q, n, dx, dz)
  {
    PatchworkIsCurrent(q, n, p, dx, dz);
    if KeptAgree(q, n, dx, dz) {
      SamePicture(after, p, n);
    }
    if Portrays(after, n) {
      SameTops(after, p, n);
    }
  }

  lemma StillCurrent(q: Picture, c: Picture, n: Picture, p: Picture, dx: int, dz: int)
    requires Patchwork(q, n, p, dx, dz) && Patchwork(c, n, n, dx, dz)
    requires forall i :: 0 <= i < TEXELS ==> q.TopAt(i) == c.TopAt(i)
    ensures forall i :: 0 <= i < TEXELS ==> p.TopAt(i) == n.TopAt(i)
  {
    forall i | 0 <= i < TEXELS ensures p.TopAt(i) == n.TopAt(i) {
      TexelSource(q, n, p, i, dx, dz);
      TexelSource(c, n, n, i, dx, dz);
    }
  }

  /** Over one surface, after any rebuilds at any positions and faces, the rasters are those of a
      whole rebuild at the map's centre and face. */
  method Wander(m: Minimap, world: World, visits: seq<(Face, Col, bool)>)
    requires m.Valid() && m.UpToDate(world)
    modifies m, m.rgba, m.base, m.topY
    ensures m.Valid() && m.UpToDate(world)
  {
    for k := 0 to |visits|
      invariant m.Valid() && m.UpToDate(world)
    {
      var (face, col, elapsed) := visits[k];
      var _ := m.Rebuild(world, face, col, elapsed);
    }
  }

  /** A built map holds the heights of what it shows. */
  lemma HeldHeight(m: Minimap, col: Col, i: nat)
    requires m.Valid() && m.center == Some(col) && i < TEXELS
    ensures i < m.topY.Length && m.topY[i] == m.PictureAt(m.shown, col).Height(i)
  {
  }

  function TopOf(s: Surface, f: Face, x: int, y: int): Option<Top> {
    s(f, x, y)
  }

  lemma KeptTop(was: Surface, now: Surface, a: Col, b: Col, f: Face, x: int, y: int)
    requires Shared(a, b, x, y)
    ensures TopOf(Patched(was, now, a, b), f, x, y) == TopOf(was, f, x, y)
  {
  }

  lemma HeightOf(p: Picture, i: int)
    ensures p.Height(i) == match TopOf(p.surface, p.face, p.cx - 128 + i % 256, p.cy - 128 + i / 256)
                           case None => NO_HEIGHT
                           case Some(top) => top.height
  {
  }

  lemma StaleTexel(p: Picture, texel: int)
    requires p.face == PosY && p.cx == 16 && p.cy == 0 && texel == 128 * 256 + 112
      && TopOf(p.surface, PosY, 0, 0) == None
    ensures p.Height(texel) == NO_HEIGHT
  {
    assert texel % 256 == 112 && texel / 256 == 128;
    HeightOf(p, texel);
  }

  /** A changing surface breaks this: a shift stores the new stamp without repainting what it keeps,
      so an edit under the kept texels stays hidden from the interval rebuild that follows. */
  method EditHiddenByShift() returns (last: Option<bool>, held: int, current: int)
    ensures last == Some(false)
    ensures held != current
  {
    var black, tint := Color(0, 0, 0, 255), Tint(b => b, b => b);
    var empty: Surface := (f: Face, x: int, y: int) => None;
    var edited: Surface := (f: Face, x: int, y: int) => if x == 0 && y == 0 then Some(Top(5, black)) else None;
    var before := World(empty, (f: Face, a: int, b: int, c: int, d: int) => 0);
    var after := World(edited, (f: Face, a: int, b: int, c: int, d: int) => 1);
    assert TopOf(empty, PosY, 0, 0) == None && TopOf(edited, PosY, 0, 0) == Some(Top(5, black));
    hide Minimap.Valid, Minimap.UpToDate, Minimap.Shows, KeptAgree, Patched, TopOf, Picture.Height;
    var m := new Minimap(black, tint, 16);
    var _ := m.Rebuild(before, PosY, Col(0, 0), true);
    assert m.shown == empty;
    var _ := m.Rebuild(after, PosY, Col(16, 0), false);
    KeptTop(empty, edited, Col(0, 0), Col(16, 0), PosY, 0, 0);
    assert TopOf(m.shown, PosY, 0, 0) == None;
    last := m.Rebuild(after, PosY, Col(16, 0), true);
    assert TopOf(m.shown, PosY, 0, 0) == None && m.face == PosY;
    var texel := 128 * 256 + 112;
    StaleTexel(m.PictureAt(m.shown, Col(16, 0)), texel);
    HeldHeight(m, Col(16, 0), texel);
    held := m.topY[texel];
    current := match TopOf(edited, PosY, 0, 0) case None => NO_HEIGHT case Some(t) => t.height;
  }
}
