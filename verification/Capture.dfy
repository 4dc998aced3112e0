/** Voice capture: linear resampling, 20 ms framing and sequence minting. */
module Capture {
  import opened Serial

  const FRAME_SAMPLES := 960

  // ----- the resampler, as functions of its value -----

  /** Input samples per output, position in the current interval, and the last input. */
  datatype Interp = Interp(step: real, frac: real, prev: real) {
    predicate Valid() {
      step > 0.0 && frac >= 0.0
    }
  }

  function Fresh(step: real): Interp {
    Interp(step, 0.0, 0.0)
  }

  /** Linear interpolation from `a` to `b`. */
  function Lerp(a: real, b: real, at: real): real {
    a + (b - a) * at
  }

  /** How many outputs the current interval still gives. */
  function Due(step: real, frac: real): nat
    requires step > 0.0
  {
    if frac >= 1.0 then 0 else
      DueIsNat(step, frac);
      ((1.0 - frac) / step).Floor + 1
  }

  lemma DueIsNat(step: real, frac: real)
    requires step > 0.0 && frac < 1.0
    ensures ((1.0 - frac) / step).Floor >= 0
  {
  }

  lemma DueDrops(step: real, frac: real)
    requires step > 0.0 && frac < 1.0
    ensures Due(step, frac + step) < Due(step, frac)
  {
    var q := (1.0 - frac) / step;
    assert q * step == 1.0 - frac;
    assert (q - 1.0) * step == 1.0 - (frac + step);
    Quotient(q - 1.0, step, 1.0 - (frac + step));
    DueIsNat(step, frac);
  }

  lemma Quotient(q: real, d: real, n: real)
    requires d != 0.0 && q * d == n
    ensures n / d == q
  {
  }

  /** The outputs of one interval, from position `frac` on, between `prev` and `s`. */
  function Between(step: real, frac: real, prev: real, s: real): seq<real>
    requires step > 0.0
    decreases Due(step, frac)
  {
    if frac >= 1.0 then [] else
      DueDrops(step, frac);
      [Lerp(prev, s, frac)] + Between(step, frac + step, prev, s)
  }

  /** Where the interval's outputs leave the position. */
  function Past(step: real, frac: real): (r: real)
    requires step > 0.0
    ensures r >= 1.0 && r >= frac
    decreases Due(step, frac)
  {
    if frac >= 1.0 then frac else
      DueDrops(step, frac);
      Past(step, frac + step)
  }

  lemma OneOutput(step: real, frac: real, prev: real, s: real)
    requires step > 0.0
    ensures frac < 1.0 ==>
              && Between(step, frac, prev, s) == [Lerp(prev, s, frac)] + Between(step, frac + step, prev, s)
              && Past(step, frac) == Past(step, frac + step) && Due(step, frac + step) < Due(step, frac)
    ensures frac >= 1.0 ==> Between(step, frac, prev, s) == [] && Past(step, frac) == frac
  {
    if frac < 1.0 {
      DueDrops(step, frac);
    }
  }

  function After(r: Interp, s: real): (r': Interp)
    requires r.Valid()
    ensures r'.Valid() && r'.step == r.step
  {
    Interp(r.step, Past(r.step, r.frac) - 1.0, s)
  }

  function Output(r: Interp, input: seq<real>): seq<real>
    requires r.Valid()
    decreases |input|
  {
    if input == [] then []
    else Between(r.step, r.frac, r.prev, input[0]) + Output(After(r, input[0]), input[1..])
  }

  function Final(r: Interp, input: seq<real>): (r': Interp)
    requires r.Valid()
    ensures r'.Valid() && r'.step == r.step
    decreases |input|
  {
    if input == [] then r else Final(After(r, input[0]), input[1..])
  }

  lemma {:induction false} OutputJoin(r: Interp, a: seq<real>, b: seq<real>)
    requires r.Valid()
    ensures Final(r, a + b) == Final(Final(r, a), b)
    ensures Output(r, a + b) == Output(r, a) + Output(Final(r, a), b)
    decreases |a|
  {
    if a == [] {
      assert a + b == b;
    } else {
      assert (a + b)[1..] == a[1..] + b;
      OutputJoin(After(r, a[0]), a[1..], b);
    }
  }

  class Resampler {
    const step: real
    var frac: real
    var prev: real

    ghost function View(): Interp
      reads this
    {
      Interp(step, frac, prev)
    }

    constructor (srcHz: nat, dstHz: nat)
      requires srcHz > 0 && dstHz > 0
      ensures View() == Fresh(srcHz as real / dstHz as real) && View().Valid()
    {
      step := srcHz as real / dstHz as real;
      frac := 0.0;
      prev := 0.0;
    }

    method Reset()
      modifies this
      ensures View() == Fresh(step)
    {
      frac := 0.0;
      prev := 0.0;
    }

    /** Append the resampled output for `input` to `buf`. */
    method Process(input: seq<real>, buf: seq<real>) returns (out: seq<real>)
      requires View().Valid()
      modifies this
      ensures View() == Final(old(View()), input)
      ensures out == buf + Output(old(View()), input)
    {
      out := buf;
      ghost var r := View();
      var i := 0;
      while i < |input|
        invariant 0 <= i <= |input|
        invariant View() == Final(r, input[..i]) && out == buf + Output(r, input[..i])
      {
        assert input[..i + 1] == input[..i] + [input[i]];
        OutputJoin(r, input[..i], [input[i]]);
        OutputOne(View(), input[i]);
        out := Advance(input[i], out);
        i := i + 1;
      }
      assert input[..i] == input;
    }

    /** One input sample: the outputs of the interval it closes. */
    method Advance(s: real, buf: seq<real>) returns (out: seq<real>)
      requires View().Valid()
      modifies this
      ensures View() == After(old(View()), s)
      ensures out == buf + Between(step, old(frac), old(prev), s)
    {
      hide Between, Past, Due, Lerp;
      out := buf;
      while frac < 1.0
        invariant View().Valid() && prev == old(prev)
        invariant Past(step, frac) == Past(step, old(frac))
        invariant out + Between(step, frac, prev, s) == buf + Between(step, old(frac), prev, s)
        decreases Due(step, frac)
      {
        OneOutput(step, frac, prev, s);
        var sample := Lerp(prev, s, frac);
        ghost var rest := Between(step, frac + step, prev, s);
        assert Between(step, frac, prev, s) == [sample] + rest;
        assert out + ([sample] + rest) == (out + [sample]) + rest;
        out := out + [sample];
        frac := frac + step;
      }
      OneOutput(step, frac, prev, s);
      assert out + [] == out;
      frac := frac - 1.0;
      prev := s;
    }
  }

  lemma OutputOne(r: Interp, s: real)
    requires r.Valid()
    ensures Output(r, [s]) == Between(r.step, r.frac, r.prev, s) && Final(r, [s]) == After(r, s)
  {
    assert [s][1..] == [];
    assert Output(After(r, s), []) == [];
  }

  // ----- framing -----

  datatype Frame = Frame(num: Seq, samples: seq<real>)

  /** The full frames at the front of `buf`, numbered from `num`. */
  function Frames(buf: seq<real>, num: Seq): seq<Frame> {
    if |buf| < FRAME_SAMPLES then []
    else [Frame(num, buf[..FRAME_SAMPLES])] + Frames(buf[FRAME_SAMPLES..], Next(num))
  }

  function Leftover(buf: seq<real>): (rest: seq<real>)
    ensures |rest| < FRAME_SAMPLES
  {
    if |buf| < FRAME_SAMPLES then buf else Leftover(buf[FRAME_SAMPLES..])
  }

  function NextNum(buf: seq<real>, num: Seq): Seq {
    if |buf| < FRAME_SAMPLES then num else NextNum(buf[FRAME_SAMPLES..], Next(num))
  }

  function Samples(fs: seq<Frame>): seq<real> {
    if fs == [] then [] else fs[0].samples + Samples(fs[1..])
  }

  lemma {:induction false} FramesKeepAll(buf: seq<real>, num: Seq)
    ensures Samples(Frames(buf, num)) + Leftover(buf) == buf
    ensures forall i :: 0 <= i < |Frames(buf, num)| ==>
              |Frames(buf, num)[i].samples| == FRAME_SAMPLES && Frames(buf, num)[i].num == Plus(num, i)
    ensures NextNum(buf, num) == Plus(num, |Frames(buf, num)|)
    decreases |buf|
  {
    if |buf| >= FRAME_SAMPLES {
      var rest := buf[FRAME_SAMPLES..];
      FramesKeepAll(rest, Next(num));
      var fs, later := Frames(buf, num), Frames(rest, Next(num));
      assert fs[1..] == later;
      assert buf == buf[..FRAME_SAMPLES] + rest;
      assert Samples(fs) + Leftover(buf) == buf[..FRAME_SAMPLES] + (Samples(later) + Leftover(rest));
      forall i | 0 <= i < |fs|
        ensures |fs[i].samples| == FRAME_SAMPLES && fs[i].num == Plus(num, i)
      {
        if i > 0 {
          assert fs[i] == later[i - 1];
          PlusNext(num, i - 1);
        }
      }
      PlusNext(num, |later|);
    }
  }

  lemma {:induction false} FramesJoin(a: seq<real>, b: seq<real>, num: Seq)
    ensures Frames(a + b, num) == Frames(a, num) + Frames(Leftover(a) + b, NextNum(a, num))
    ensures Leftover(a + b) == Leftover(Leftover(a) + b)
    ensures NextNum(a + b, num) == NextNum(Leftover(a) + b, NextNum(a, num))
    decreases |a|
  {
    if |a| >= FRAME_SAMPLES {
      var rest := a[FRAME_SAMPLES..];
      assert (a + b)[..FRAME_SAMPLES] == a[..FRAME_SAMPLES] && (a + b)[FRAME_SAMPLES..] == rest + b;
      FramesJoin(rest, b, Next(num));
    }
  }

  // ----- the encoder core -----

  datatype Core = Core(interp: Interp, buf: seq<real>, num: Seq) {
    ghost predicate Valid() {
      interp.Valid() && |buf| < FRAME_SAMPLES
    }
  }

  function Cleared(c: Core): Core {
    Core(Fresh(c.interp.step), [], c.num)
  }

  function Fed(c: Core, pcm: seq<real>): Core
    requires c.interp.Valid()
  {
    var all := c.buf + Output(c.interp, pcm);
    Core(Final(c.interp, pcm), Leftover(all), NextNum(all, c.num))
  }

  function Emitted(c: Core, pcm: seq<real>): seq<Frame>
    requires c.interp.Valid()
  {
    Frames(c.buf + Output(c.interp, pcm), c.num)
  }

  /** Feeding in pieces is feeding at once: the same state, and the same frames in the same order. */
  lemma FeedInPieces(c: Core, a: seq<real>, b: seq<real>)
    requires c.Valid()
    ensures Fed(c, a).Valid()
    ensures Fed(Fed(c, a), b) == Fed(c, a + b)
    ensures Emitted(c, a) + Emitted(Fed(c, a), b) == Emitted(c, a + b)
  {
    OutputJoin(c.interp, a, b);
    var oa, ob := Output(c.interp, a), Output(Final(c.interp, a), b);
    assert c.buf + (oa + ob) == (c.buf + oa) + ob;
    FramesJoin(c.buf + oa, ob, c.num);
  }

  /** Nothing is lost: since a reset, the frames and the leftover together are the resampled input. */
  lemma FramesAreTheOutput(c: Core, pcm: seq<real>)
    requires c.interp.Valid() && c.buf == []
    ensures Samples(Emitted(c, pcm)) + Fed(c, pcm).buf == Output(c.interp, pcm)
    ensures |Fed(c, pcm).buf| < FRAME_SAMPLES
    ensures Fed(c, pcm).num == Plus(c.num, |Emitted(c, pcm)|)
  {
    assert c.buf + Output(c.interp, pcm) == Output(c.interp, pcm);
    FramesKeepAll(Output(c.interp, pcm), c.num);
  }

  class EncodeCore {
    const resampler: Resampler
    var buf: seq<real>
    var num: Seq

    ghost function View(): Core
      reads this, resampler
    {
      Core(resampler.View(), buf, num)
    }

    ghost predicate Valid()
      reads this, resampler
    {
      View().Valid()
    }

    constructor (srcHz: nat, dstHz: nat)
      requires srcHz > 0 && dstHz > 0
      ensures Valid() && fresh(resampler)
      ensures View() == Core(Fresh(srcHz as real / dstHz as real), [], 0)
    {
      resampler := new Resampler(srcHz, dstHz);
      buf := [];
      num := 0;
    }

    method Reset()
      requires Valid()
      modifies this, resampler
      ensures Valid() && View() == Cleared(old(View()))
    {
      resampler.Reset();
      buf := [];
    }

    /** Feed source-rate samples. The frames come back in the order the source hands them out. */
    method Feed(pcm: seq<real>, transmitting: bool) returns (frames: seq<Frame>)
      requires Valid()
      modifies this, resampler
      ensures Valid()
      ensures !transmitting ==> frames == [] && View() == Cleared(old(View()))
      ensures transmitting ==> frames == Emitted(old(View()), pcm) && View() == Fed(old(View()), pcm)
    {
      if !transmitting {
        Reset();
        return [];
      }
      buf := resampler.Process(pcm, buf);
      frames := [];
      ghost var all, first := buf, num;
      while |buf| >= FRAME_SAMPLES
        invariant resampler.View() == Final(old(resampler.View()), pcm)
        invariant frames + Frames(buf, num) == Frames(all, first)
        invariant Leftover(buf) == Leftover(all) && NextNum(buf, num) == NextNum(all, first)
        decreases |buf|
      {
        var frame := buf[..FRAME_SAMPLES];
        frames := frames + [Frame(num, frame)];
        buf := buf[FRAME_SAMPLES..];
        num := Next(num);
      }
    }
  }

  // ----- the hand-off ring -----

  /** The last `cap` of `q`. */
  function Freshest<T>(q: seq<T>, cap: nat): seq<T> {
    if |q| <= cap then q else q[|q| - cap..]
  }

  /** Dropping the oldest on each overflow keeps the freshest of everything ever pushed. */
  lemma FreshestJoin<T>(a: seq<T>, b: seq<T>, cap: nat)
    ensures Freshest(Freshest(a, cap) + b, cap) == Freshest(a + b, cap)
  {
    if |a| > cap {
      assert Freshest(a, cap) + b == (a + b)[|a| - cap..];
    }
  }

  class OutRing<T> {
    var q: seq<T>
    const cap: nat

    ghost predicate Valid()
      reads this
    {
      0 < cap && |q| <= cap
    }

    constructor (cap: nat)
      requires cap > 0
      ensures Valid() && q == [] && this.cap == cap
    {
      this.cap := cap;
      q := [];
    }

    method Push(v: T)
      requires Valid()
      modifies this
      ensures Valid() && q == Freshest(old(q) + [v], cap)
    {
      if |q| >= cap {
        q := q[1..];
      }
      q := q + [v];
    }

    method Drain() returns (all: seq<T>)
      requires Valid()
      modifies this
      ensures Valid() && all == old(q) && q == []
    {
      all := q;
      q := [];
    }
  }
}
