/** In-place moves of square rasters stored row by row. */
module Raster {

  /** Value `k` of row `v` in a raster whose rows hold `w` values. */
  function At<T>(s: seq<T>, w: nat, v: nat, k: nat): T
    requires v * w + k < |s|
  {
    s[v * w + k]
  }

  lemma RowStart(v: nat, h: nat, w: nat)
    requires v < h
    ensures v * w + w <= h * w
  {
    assert (h - v - 1) * w >= 0;
    assert h * w == v * w + w + (h - v - 1) * w;
  }

  /** Whether the source of value `k` of row `v` lies inside, for a move by `dk` values and `dv` rows. */
  predicate Inside(h: nat, w: nat, v: int, k: int, dk: int, dv: int) {
    0 <= v + dv < h && 0 <= k + dk < w
  }

  /** What value `k` of row `v` becomes: its source if that lies inside, else what it was. */
  ghost function MovedFrom<T>(s: seq<T>, h: nat, w: nat, v: nat, k: nat, dk: int, dv: int): T
    requires |s| == h * w && v < h && k < w
  {
    if Inside(h, w, v, k, dk, dv) then
      (RowStart(v + dv, h, w); At(s, w, v + dv, k + dk))
    else
      (RowStart(v, h, w); At(s, w, v, k))
  }

  /** Rows `lo <= v < hi` of `t` are `s` moved, the others are still those of `s`. */
  ghost predicate RowsMoved<T>(s: seq<T>, t: seq<T>, h: nat, w: nat, dk: int, dv: int, lo: int, hi: int)
    requires |s| == |t| == h * w
  {
    forall v: nat, k: nat :: v < h && k < w ==>
      (RowStart(v, h, w); At(t, w, v, k))
      == if lo <= v < hi then MovedFrom(s, h, w, v, k, dk, dv) else (RowStart(v, h, w); At(s, w, v, k))
  }

  /** Row `r` of `t` is what moving `before` makes of it; the other rows are those of `before`. */
  ghost predicate RowMoved<T>(before: seq<T>, t: seq<T>, h: nat, w: nat, dk: int, dv: int, r: nat)
    requires |before| == |t| == h * w
  {
    RowsMoved(before, t, h, w, dk, dv, r, r + 1)
  }

  /** `copy_within`: the source is read whole before anything is written. */
  method CopyWithin<T>(buf: array<T>, src: nat, len: nat, dst: nat)
    requires src + len <= buf.Length && dst + len <= buf.Length
    modifies buf
    ensures forall i :: 0 <= i < buf.Length ==>
              buf[i] == if dst <= i < dst + len then old(buf[i - dst + src]) else old(buf[i])
  {
    forall i | dst <= i < dst + len {
      buf[i] := buf[i - dst + src];
    }
  }

  /** `t` is `before` after copying `len` values from `src` to `dst`. */
  ghost predicate Copied<T>(before: seq<T>, t: seq<T>, src: nat, dst: nat, len: nat)
    requires |before| == |t| && src + len <= |t| && dst + len <= |t|
  {
    forall i {:trigger t[i]} :: 0 <= i < |t| ==>
      t[i] == if dst <= i < dst + len then before[i - dst + src] else before[i]
  }

  /** Place `k` of the copied row. The row starts are plain numbers, so the arithmetic is linear. */
  lemma PlaceInRow<T>(before: seq<T>, t: seq<T>, w: nat, target: nat, source: nat, dk: int, k: nat,
                      src: nat, dst: nat, len: nat)
    requires |before| == |t| && k < w && source + w <= |t| && target + w <= |t|
    requires 0 <= w + dk && 0 <= w - dk && len == (if dk < 0 then w + dk else w - dk)
    requires src == source + (if dk < 0 then 0 else dk)
    requires dst == target + (if dk < 0 then -dk else 0)
    requires Copied(before, t, src, dst, len)
    ensures t[target + k] == if 0 <= k + dk < w then before[source + (k + dk)] else before[target + k]
  {
  }

  /** The copy of one row, read through rows and places instead of flat indices. */
  lemma RowCopied<T>(before: seq<T>, t: seq<T>, h: nat, w: nat, dk: int, dv: int,
                     r: nat, src: nat, dst: nat, len: nat)
    requires |before| == |t| == h * w && r < h && 0 <= r + dv < h
    requires 0 <= w + dk && 0 <= w - dk && len == (if dk < 0 then w + dk else w - dk)
    requires src == (r + dv) * w + (if dk < 0 then 0 else dk)
    requires dst == r * w + (if dk < 0 then -dk else 0)
    requires src + len <= h * w && dst + len <= h * w
    requires Copied(before, t, src, dst, len)
    ensures RowMoved(before, t, h, w, dk, dv, r)
  {
    RowStart(r, h, w);
    RowStart(r + dv, h, w);
    var target, source := r * w, (r + dv) * w;
    forall v: nat, k: nat | v < h && k < w
      ensures v * w + k < h * w
      ensures At(t, w, v, k) == if v == r then MovedFrom(before, h, w, v, k, dk, dv) else At(before, w, v, k)
    {
      RowStart(v, h, w);
      if v == r {
        PlaceInRow(before, t, w, target, source, dk, k, src, dst, len);
      } else {
        OtherRow(before, t, v, r, w, k, src, dst, len);
      }
    }
  }

  lemma OtherRow<T>(before: seq<T>, t: seq<T>, v: nat, r: nat, w: nat, k: nat, src: nat, dst: nat, len: nat)
    requires |before| == |t| && k < w && v != r && v * w + w <= |t|
    requires src + len <= |t| && dst + len <= |t| && r * w <= dst && dst + len <= r * w + w
    requires Copied(before, t, src, dst, len)
    ensures t[v * w + k] == before[v * w + k]
  {
    if v < r {
      RowStart(v, r, w);
    } else {
      RowStart(r, v, w);
    }
  }

  lemma Flattened(v: nat, sz: nat, u: nat, per: nat)
    ensures (v * sz + u) * per == v * (sz * per) + u * per
  {
  }

  lemma Scaled(a: nat, b: nat, per: nat)
    requires a <= b
    ensures a * per <= b * per && (b - a) * per == b * per - a * per
  {
    assert (b - a) * per >= 0;
  }

  lemma Negated(a: int, per: nat)
    ensures (-a) * per == -(a * per)
  {
  }

  /** The flat indices of a row copy, as rows of `w` values and a move by `dk` values. */
  lemma RowIndices(sz: nat, per: nat, v: nat, dx: int, dz: int, w: nat, dk: int, len: int, src: int, dst: int)
    requires 0 < sz + dx && 0 < sz - dx && v < sz && 0 <= v + dz < sz
    requires w == sz * per && dk == dx * per
    requires len == (sz - (if dx < 0 then -dx else dx)) * per
    requires src == ((v + dz) * sz + (if dx < 0 then 0 else dx)) * per
    requires dst == (v * sz + (if dx < 0 then -dx else 0)) * per
    ensures 0 <= w + dk && 0 <= w - dk && len == if dk < 0 then w + dk else w - dk
    ensures src == (v + dz) * w + (if dk < 0 then 0 else dk)
    ensures dst == v * w + (if dk < 0 then -dk else 0)
    ensures 0 <= src && 0 <= dst && 0 <= len && src + len <= sz * w && dst + len <= sz * w
  {
    var adx := if dx < 0 then -dx else dx;
    Scaled(adx, sz, per);
    Negated(adx, per);
    Flattened(v + dz, sz, if dx < 0 then 0 else dx, per);
    Flattened(v, sz, if dx < 0 then -dx else 0, per);
    Scaled(0, adx, per);
    assert dk == if dx < 0 then -(adx * per) else adx * per;
    RowStart(v + dz, sz, w);
    RowStart(v, sz, w);
    RowStart(0, v + dz + 1, w);
    RowStart(0, v + 1, w);
  }

  /** The row copy that `Shift` repeats: row `v` takes what lies `dx` texels and `dz` rows on. */
  method CopyRow<T>(buf: array<T>, sz: nat, per: nat, v: nat, dx: int, dz: int)
    requires 0 < sz + dx && 0 < sz - dx && v < sz && 0 <= v + dz < sz
    requires buf.Length == sz * (sz * per)
    modifies buf
    ensures RowMoved(old(buf[..]), buf[..], sz, sz * per, dx * per, dz, v)
  {
    var adx := if dx < 0 then -dx else dx;
    var len := (sz - adx) * per;
    var dstU := if dx < 0 then adx else 0;
    var srcU := if dx < 0 then 0 else adx;
    var src := ((v + dz) * sz + srcU) * per;
    var dst := (v * sz + dstU) * per;
    ghost var before := buf[..];
    ghost var w, dk := sz * per, dx * per;
    RowIndices(sz, per, v, dx, dz, w, dk, len, src, dst);
    CopyWithin(buf, src, len, dst);
    RowCopied(before, buf[..], sz, w, dk, dz, v, src, dst, len);
  }

  /** One more row at either end of the moved rows, its source row not yet among them. */
  lemma OneMoreRow<T>(s: seq<T>, before: seq<T>, t: seq<T>, h: nat, w: nat, dk: int, dv: int, lo: int, hi: int, r: nat)
    requires |s| == |before| == |t| == h * w && r < h && 0 <= r + dv < h
    requires RowsMoved(s, before, h, w, dk, dv, lo, hi) && RowMoved(before, t, h, w, dk, dv, r)
    requires !(lo <= r < hi) && !(lo <= r + dv < hi)
    ensures r == hi && lo <= hi ==> RowsMoved(s, t, h, w, dk, dv, lo, hi + 1)
    ensures r == lo - 1 && lo <= hi ==> RowsMoved(s, t, h, w, dk, dv, lo - 1, hi)
  {
    forall v: nat, k: nat | v < h && k < w
      ensures v * w + k < h * w
      ensures At(t, w, v, k) == if lo <= v < hi || v == r then MovedFrom(s, h, w, v, k, dk, dv) else At(s, w, v, k)
    {
      RowStart(v, h, w);
      RowStart(r + dv, h, w);
      if v == r && Inside(h, w, v, k, dk, dv) {
        assert At(before, w, v + dv, k + dk) == At(s, w, v + dv, k + dk);
      } else {
        assert At(before, w, v, k) == if lo <= v < hi then MovedFrom(s, h, w, v, k, dk, dv) else At(s, w, v, k);
      }
    }
  }

  /** Move a raster of `sz` rows of `sz` texels of `per` values in place by (`dx`, `dz`) texels,
      one row copy at a time, in the order that reads each row before it is overwritten. */
  method Shift<T>(buf: array<T>, sz: nat, per: nat, dx: int, dz: int)
    requires 0 < sz + dx && 0 < sz - dx && 0 < sz + dz && 0 < sz - dz
    requires buf.Length == sz * (sz * per)
    modifies buf
    ensures RowsMoved(old(buf[..]), buf[..], sz, sz * per, dx * per, dz, 0, sz)
  {
    ghost var w, dk := sz * per, dx * per;
    ghost var s := buf[..];
    if dz > 0 {
      var v := 0;
      while v < sz - dz
        invariant 0 <= v <= sz - dz
        invariant RowsMoved(s, buf[..], sz, w, dk, dz, 0 - dz, v)
      {
        ghost var before := buf[..];
        CopyRow(buf, sz, per, v, dx, dz);
        OneMoreRow(s, before, buf[..], sz, w, dk, dz, 0, v, v);
        v := v + 1;
      }
    } else {
      var v := sz;
      while v > 0 - dz
        invariant 0 - dz <= v <= sz
        invariant RowsMoved(s, buf[..], sz, w, dk, dz, v, sz - dz)
      {
        v := v - 1;
        ghost var before := buf[..];
        CopyRow(buf, sz, per, v, dx, dz);
        OneMoreRow(s, before, buf[..], sz, w, dk, dz, v + 1, sz, v);
      }
    }
  }
}
