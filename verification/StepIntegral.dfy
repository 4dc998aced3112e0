/** Integrals of step functions along a line, by cutting it where the value is constant. */
module StepIntegral {

  /** A stretch with one value. */
  datatype Piece = Piece(from: real, to: real, value: int)

  /** `ps` cuts `[a, b]` into pieces inside which `f` is constant. */
  ghost predicate Cuts(f: real -> int, ps: seq<Piece>, a: real, b: real) {
    if ps == [] then a == b
    else ps[0].from == a && Flat(f, ps[0]) && Cuts(f, ps[1..], ps[0].to, b)
  }

  /** Between its ends `f` has the piece's value. At the ends it may have any. */
  ghost predicate Flat(f: real -> int, p: Piece) {
    p.from <= p.to && forall s :: p.from < s < p.to ==> f(s) == p.value
  }

  function Weight(p: Piece): real {
    p.value as real * (p.to - p.from)
  }

  function Sum(ps: seq<Piece>): real {
    if ps == [] then 0.0 else Weight(ps[0]) + Sum(ps[1..])
  }

  lemma {:induction false} CutsForward(f: real -> int, ps: seq<Piece>, a: real, b: real)
    requires Cuts(f, ps, a, b)
    ensures a <= b
    ensures a == b ==> Sum(ps) == 0.0
  {
    if ps != [] {
      CutsForward(f, ps[1..], ps[0].to, b);
      if a == b {
        assert ps[0].to - ps[0].from == 0.0;
      }
    }
  }

  /** The first piece, cut at `m`. */
  lemma CutFirst(f: real -> int, ps: seq<Piece>, a: real, m: real, b: real)
    requires ps != [] && Cuts(f, ps, a, b) && a <= m <= ps[0].to
    ensures var rest := [Piece(m, ps[0].to, ps[0].value)] + ps[1..];
            Cuts(f, rest, m, b) && Sum(ps) == ps[0].value as real * (m - a) + Sum(rest)
  {
    var rest := [Piece(m, ps[0].to, ps[0].value)] + ps[1..];
    assert rest[1..] == ps[1..];
    var v := ps[0].value as real;
    assert v * (ps[0].to - a) == v * (m - a) + v * (ps[0].to - m);
  }

  /** Every way of cutting a stretch gives the same sum: the integral is the function's own. */
  lemma {:induction false} CutsAgree(f: real -> int, ps: seq<Piece>, qs: seq<Piece>, a: real, b: real)
    requires Cuts(f, ps, a, b) && Cuts(f, qs, a, b)
    ensures Sum(ps) == Sum(qs)
    decreases |ps| + |qs|
  {
    if ps == [] || qs == [] {
      CutsForward(f, ps, a, b);
      CutsForward(f, qs, a, b);
    } else if ps[0].to <= qs[0].to {
      CutsAgreeStep(f, ps, qs, a, b);
    } else {
      CutsAgreeStep(f, qs, ps, a, b);
    }
  }

  lemma {:induction false} CutsAgreeStep(f: real -> int, ps: seq<Piece>, qs: seq<Piece>, a: real, b: real)
    requires ps != [] && qs != [] && ps[0].to <= qs[0].to
    requires Cuts(f, ps, a, b) && Cuts(f, qs, a, b)
    ensures Sum(ps) == Sum(qs)
    decreases |ps| + |qs|, 0
  {
    var m := ps[0].to;
    CutFirst(f, qs, a, m, b);
    var rest := [Piece(m, qs[0].to, qs[0].value)] + qs[1..];
    CutsAgree(f, ps[1..], rest, m, b);
    if a < m {
      assert f((a + m) / 2.0) == ps[0].value && f((a + m) / 2.0) == qs[0].value;
    } else {
      assert m - a == 0.0;
    }
  }

  lemma {:induction false} CutsJoin(f: real -> int, ps: seq<Piece>, qs: seq<Piece>, a: real, m: real, b: real)
    requires Cuts(f, ps, a, m) && Cuts(f, qs, m, b)
    ensures Cuts(f, ps + qs, a, b) && Sum(ps + qs) == Sum(ps) + Sum(qs)
  {
    if ps == [] {
      assert ps + qs == qs;
    } else {
      CutsJoin(f, ps[1..], qs, ps[0].to, m, b);
      assert (ps + qs)[1..] == ps[1..] + qs;
    }
  }

  lemma CutsOne(f: real -> int, p: Piece)
    requires Flat(f, p)
    ensures Cuts(f, [p], p.from, p.to) && Sum([p]) == Weight(p)
  {
    assert [p][1..] == [];
  }

  function Shifted(ps: seq<Piece>, off: real): seq<Piece> {
    if ps == [] then [] else [Piece(ps[0].from + off, ps[0].to + off, ps[0].value)] + Shifted(ps[1..], off)
  }

  /** Cutting a function shifted along the line. */
  lemma {:induction false} CutsShift(f: real -> int, g: real -> int, ps: seq<Piece>, a: real, b: real, off: real)
    requires Cuts(f, ps, a, b) && forall s :: g(s + off) == f(s)
    ensures Cuts(g, Shifted(ps, off), a + off, b + off) && Sum(Shifted(ps, off)) == Sum(ps)
  {
    if ps != [] {
      CutsShift(f, g, ps[1..], ps[0].to, b, off);
      var p := Piece(ps[0].from + off, ps[0].to + off, ps[0].value);
      assert Shifted(ps, off)[1..] == Shifted(ps[1..], off);
      forall s | p.from < s < p.to ensures g(s) == p.value {
        assert g((s - off) + off) == f(s - off);
      }
    }
  }
}
