/** The resampler in closed form: which outputs a run of inputs gives, and what each is. */
module CaptureForm {
  import opened Capture
  import opened Raster

  /** The input read at position `pos`, on the line between neighbours, with a zero before the first. */
  function Sample(xs: seq<real>, pos: real): real
    requires 0.0 <= pos < |xs| as real
  {
    var i := pos.Floor;
    Lerp(if i == 0 then 0.0 else xs[i - 1], xs[i], pos - i as real)
  }

  function Position(step: real, j: nat): real {
    j as real * step
  }

  lemma NextPosition(step: real, j: nat)
    ensures Position(step, j + 1) == Position(step, j) + step
  {
  }

  /** `out` reads the line from `prev` to `s` over interval `n` at positions `m`, `m + 1`, and so on. */
  ghost predicate OnLine(out: seq<real>, step: real, prev: real, s: real, n: nat, m: nat) {
    forall k :: 0 <= k < |out| ==> OnLineAt(out[k], Position(step, m + k), prev, s, n)
  }

  predicate OnLineAt(v: real, pos: real, prev: real, s: real, n: nat) {
    pos < n as real + 1.0 && v == Lerp(prev, s, pos - n as real)
  }

  lemma OnLineMore(v: real, rest: seq<real>, step: real, prev: real, s: real, n: nat, m: nat)
    requires OnLineAt(v, Position(step, m), prev, s, n) && OnLine(rest, step, prev, s, n, m + 1)
    ensures OnLine([v] + rest, step, prev, s, n, m)
  {
    var out := [v] + rest;
    forall k | 0 <= k < |out| ensures OnLineAt(out[k], Position(step, m + k), prev, s, n) {
      if k > 0 {
        assert OnLineAt(rest[k - 1], Position(step, m + 1 + (k - 1)), prev, s, n);
        assert m + 1 + (k - 1) == m + k;
      }
    }
  }

  /** One interval: its outputs are the next ones in line, and they stop at the first position past it. */
  lemma {:induction false} BetweenForm(step: real, frac: real, prev: real, s: real, n: nat, m: nat)
    requires step > 0.0 && frac == Position(step, m) - n as real
    ensures var out := Between(step, frac, prev, s);
            OnLine(out, step, prev, s, n, m) && Past(step, frac) == Position(step, m + |out|) - n as real
    decreases Due(step, frac)
  {
    OneOutput(step, frac, prev, s);
    if frac < 1.0 {
      NextPosition(step, m);
      BetweenForm(step, frac + step, prev, s, n, m + 1);
      hide Position, Between, Past, OnLine, Lerp;
      var v, rest := Lerp(prev, s, frac), Between(step, frac + step, prev, s);
      OnLineMore(v, rest, step, prev, s, n, m);
      assert m + 1 + |rest| == m + |[v] + rest|;
    } else {
      assert Between(step, frac, prev, s) == [];
    }
  }

  lemma PositionsGrow(step: real, a: nat, b: nat)
    requires step > 0.0 && a <= b
    ensures Position(step, a) <= Position(step, b)
  {
    var d := (b - a) as real;
    assert d * step >= 0.0;
    assert b as real == a as real + d;
  }

  /** `out` samples `xs` at positions `m`, `m + 1`, and so on. */
  ghost predicate Sampled(out: seq<real>, xs: seq<real>, step: real, m: nat) {
    forall k :: 0 <= k < |out| ==> SampledAt(out[k], xs, Position(step, m + k))
  }

  predicate SampledAt(v: real, xs: seq<real>, pos: real) {
    0.0 <= pos < |xs| as real && v == Sample(xs, pos)
  }

  lemma SampledJoin(a: seq<real>, b: seq<real>, xs: seq<real>, step: real, m: nat)
    requires Sampled(a, xs, step, m) && Sampled(b, xs, step, m + |a|)
    ensures Sampled(a + b, xs, step, m)
  {
    var out := a + b;
    forall k | 0 <= k < |out| ensures SampledAt(out[k], xs, Position(step, m + k)) {
      if k >= |a| {
        assert SampledAt(b[k - |a|], xs, Position(step, m + |a| + (k - |a|)));
        assert m + |a| + (k - |a|) == m + k;
      }
    }
  }

  /** On interval `n` the line is the one between inputs `n - 1` and `n`. */
  lemma LineSamples(v: real, pos: real, xs: seq<real>, n: nat)
    requires n < |xs| && n as real <= pos && OnLineAt(v, pos, if n == 0 then 0.0 else xs[n - 1], xs[n], n)
    ensures SampledAt(v, xs, pos)
  {
    assert pos.Floor == n;
  }

  /** The resampler after `n` inputs and `m` outputs. */
  ghost predicate At(r: Interp, xs: seq<real>, n: nat, m: nat)
    requires n <= |xs|
  {
    && r.step > 0.0 && r.frac >= 0.0 && r.frac == Position(r.step, m) - n as real
    && r.prev == (if n == 0 then 0.0 else xs[n - 1])
    && (m > 0 ==> Position(r.step, m - 1) < n as real)
  }

  lemma AtNext(r: Interp, xs: seq<real>, n: nat, m: nat)
    requires n < |xs| && At(r, xs, n, m)
    ensures var out := Between(r.step, r.frac, r.prev, xs[n]);
            At(After(r, xs[n]), xs, n + 1, m + |out|) && Sampled(out, xs, r.step, m)
  {
    BetweenForm(r.step, r.frac, r.prev, xs[n], n, m);
    var out := Between(r.step, r.frac, r.prev, xs[n]);
    hide Between, Position, Lerp, Sample;
    if out != [] {
      assert OnLineAt(out[|out| - 1], Position(r.step, m + (|out| - 1)), r.prev, xs[n], n);
      assert m + |out| - 1 == m + (|out| - 1);
    }
    forall k | 0 <= k < |out| ensures SampledAt(out[k], xs, Position(r.step, m + k)) {
      PositionsGrow(r.step, m, m + k);
      LineSamples(out[k], Position(r.step, m + k), xs, n);
    }
  }

  /** From there on, each output is the input sampled at its position. */
  lemma {:induction false} OutputForm(r: Interp, xs: seq<real>, n: nat, m: nat)
    requires n <= |xs| && At(r, xs, n, m)
    ensures var out := Output(r, xs[n..]);
            At(Final(r, xs[n..]), xs, |xs|, m + |out|) && Sampled(out, xs, r.step, m)
    decreases |xs| - n
  {
    if n < |xs| {
      AtNext(r, xs, n, m);
      var r', first := After(r, xs[n]), Between(r.step, r.frac, r.prev, xs[n]);
      var rest := Output(r', xs[n + 1..]);
      OutputForm(r', xs, n + 1, m + |first|);
      OneInput(r, xs, n);
      hide *;
      SampledJoin(first, rest, xs, r.step, m);
      assert m + |first| + |rest| == m + |first + rest|;
    }
  }

  lemma OneInput(r: Interp, xs: seq<real>, n: nat)
    requires r.Valid() && n < |xs|
    ensures Output(r, xs[n..]) == Between(r.step, r.frac, r.prev, xs[n]) + Output(After(r, xs[n]), xs[n + 1..])
    ensures Final(r, xs[n..]) == Final(After(r, xs[n]), xs[n + 1..])
    ensures After(r, xs[n]).step == r.step
  {
    assert xs[n..][1..] == xs[n + 1..];
  }

  function CeilDiv(a: nat, b: nat): nat
    requires b > 0
  {
    (a + b - 1) / b
  }

  lemma CeilDivIs(a: nat, b: nat, m: nat)
    requires b > 0 && a <= m * b && (m > 0 ==> (m - 1) * b < a)
    ensures m == CeilDiv(a, b)
  {
    var x, r := a + b - 1, a + b - 1 - m * b;
    assert (m - 1) * b == m * b - b;
    assert 0 <= r < b;
    QuotientIs(x, b, m, r);
  }

  lemma QuotientIs(x: nat, b: nat, q: nat, r: nat)
    requires b > 0 && x == q * b + r && r < b
    ensures x / b == q
  {
    var p := x / b;
    assert p * b <= x < p * b + b;
    if p < q {
      RowStart(p, q, b);
    } else if q < p {
      RowStart(q, p, b);
    }
  }

  /** From a reset, `n` inputs at `src` give `n * dst / src` outputs, rounded up, and output `j` is the
      input sampled at `j * src / dst`. */
  lemma ResampledInClosedForm(src: nat, dst: nat, xs: seq<real>)
    requires src > 0 && dst > 0
    ensures var step := src as real / dst as real;
            var out := Output(Fresh(step), xs);
            && |out| == CeilDiv(|xs| * dst, src)
            && (forall j :: 0 <= j < |out| ==> SampledAt(out[j], xs, Position(step, j)))
  {
    var step := src as real / dst as real;
    assert step > 0.0 && step * dst as real == src as real;
    StartsAt(step, xs);
    OutputForm(Fresh(step), xs, 0, 0);
    var out := Output(Fresh(step), xs);
    assert xs[0..] == xs;
    CountForm(src, dst, step, |xs|, |out|);
    hide SampledAt, Position, CeilDiv, Output;
    forall j | 0 <= j < |out| ensures SampledAt(out[j], xs, Position(step, j)) {
      assert 0 + j == j;
      assert SampledAt(out[j], xs, Position(step, 0 + j));
    }
  }

  lemma StartsAt(step: real, xs: seq<real>)
    requires step > 0.0
    ensures At(Fresh(step), xs, 0, 0)
  {
    assert Position(step, 0) == 0.0;
  }

  lemma CountForm(src: nat, dst: nat, step: real, n: nat, m: nat)
    requires src > 0 && dst > 0 && step * dst as real == src as real
    requires Position(step, m) >= n as real && (m > 0 ==> Position(step, m - 1) < n as real)
    ensures m == CeilDiv(n * dst, src)
  {
    Rescale(src, dst, step, m, n);
    if m > 0 {
      Rescale(src, dst, step, m - 1, n);
    }
    CeilDivIs(n * dst, src, m);
  }

  lemma Rescale(src: nat, dst: nat, step: real, m: nat, n: nat)
    requires dst > 0 && step * dst as real == src as real
    ensures Position(step, m) >= n as real <==> m * src >= n * dst
  {
    var d := dst as real;
    var p := Position(step, m);
    assert p * d == m as real * (step * d) == (m * src) as real;
    assert (n * dst) as real == n as real * d;
    if p >= n as real {
      assert (p - n as real) * d >= 0.0;
    } else {
      assert (n as real - p) * d > 0.0;
    }
  }
}
