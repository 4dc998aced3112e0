/** While a key press is held nothing that was said is lost, whatever the threads' interleaving: the other half of
    bursts never mixing. */
module CaptureTalk {
  import opened Common
  import opened Capture
  import opened CaptureBursts

  /** The samples of one epoch, in order. */
  function OfEpoch(ts: seq<Tagged>, epoch: int): seq<Tagged> {
    if ts == [] then [] else (if ts[0].epoch == epoch then [ts[0]] else []) + OfEpoch(ts[1..], epoch)
  }

  lemma {:induction false} OfEpochJoin(a: seq<Tagged>, b: seq<Tagged>, epoch: int)
    ensures OfEpoch(a + b, epoch) == OfEpoch(a, epoch) + OfEpoch(b, epoch)
  {
    if a == [] {
      assert a + b == b;
      assert OfEpoch(a, epoch) == [];
    } else {
      OfEpochFirst(a, epoch);
      OfEpochFirst(a + b, epoch);
      assert (a + b)[1..] == a[1..] + b;
      hide OfEpoch;
      OfEpochJoin(a[1..], b, epoch);
      Grouped(if a[0].epoch == epoch then [a[0]] else [], OfEpoch(a[1..], epoch), OfEpoch(b, epoch));
    }
  }

  lemma OfEpochFirst(a: seq<Tagged>, epoch: int)
    requires a != []
    ensures OfEpoch(a, epoch) == (if a[0].epoch == epoch then [a[0]] else []) + OfEpoch(a[1..], epoch)
  {
  }

  lemma Grouped<T>(a: seq<T>, b: seq<T>, c: seq<T>)
    ensures (a + b) + c == a + (b + c)
  {
  }

  lemma {:induction false} NoneOfEpoch(ts: seq<Tagged>, epoch: int)
    requires forall i :: 0 <= i < |ts| ==> ts[i].epoch != epoch
    ensures OfEpoch(ts, epoch) == []
  {
    if ts != [] {
      NoneOfEpoch(ts[1..], epoch);
    }
  }

  // ----- one iteration of the encoder alone -----

  function Pops(n: nat): seq<Act> {
    if n == 0 then [] else [EncoderPop] + Pops(n - 1)
  }

  /** Popping until the ring is empty takes exactly the samples of the loaded epoch, in order. */
  lemma {:induction false} PopsTakeTheRing(s: System)
    requires s.core.interp.Valid() && s.encoder.Draining? && s.encoder.active != 0
    ensures Run(s, Pops(|s.ring|))
         == s.(ring := [], encoder := s.encoder.(pcm := s.encoder.pcm + OfEpoch(s.ring, s.encoder.active)))
    decreases |s.ring|
  {
    if s.ring == [] {
      assert s.encoder.pcm + [] == s.encoder.pcm;
    } else {
      var t := Next(s, EncoderPop);
      assert Pops(|s.ring|)[1..] == Pops(|t.ring|);
      PopsTakeTheRing(t);
      OnePop(s, t);
    }
  }

  lemma OnePop(s: System, t: System)
    requires s.core.interp.Valid() && s.encoder.Draining? && s.encoder.active != 0 && s.ring != []
    requires t == Next(s, EncoderPop)
    ensures t.encoder.Draining? && t.encoder.active == s.encoder.active
    ensures t == s.(ring := s.ring[1..], encoder := t.encoder)
    ensures t.encoder.pcm + OfEpoch(t.ring, s.encoder.active) == s.encoder.pcm + OfEpoch(s.ring, s.encoder.active)
  {
  }

  /** A load of an open epoch, a drain and a feed: everything the ring held of that epoch is fed, in order,
      after what was fed of it before, and the frames that gives are sent. */
  lemma IterationTakesAll(s: System)
    requires s.core.interp.Valid() && s.encoder.Idle? && s.transmit != 0
    ensures var t := Next(s, EncoderLoad);
            var taken := OfEpoch(s.ring, s.transmit);
            var u := Next(Run(t, Pops(|s.ring|)), EncoderFeed);
            && t.core == (if s.encodingEpoch == s.transmit then s.core else Cleared(s.core))
            && t.fed == (if s.encodingEpoch == s.transmit then s.fed else [])
            && u.encoder.Idle? && u.ring == [] && u.fed == t.fed + taken
            && u.core == (if taken == [] then t.core else Fed(t.core, Values(taken)))
            && FramesOf(u.sent) == FramesOf(s.sent) + (if taken == [] then [] else Emitted(t.core, Values(taken)))
  {
    LoadStarts(s);
    var t, taken := Next(s, EncoderLoad), OfEpoch(s.ring, s.transmit);
    PopsTakeTheRing(t);
    assert [] + taken == taken && t.fed + [] == t.fed;
    var v := Run(t, Pops(|s.ring|));
    assert v == t.(ring := [], encoder := Draining(s.transmit, taken));
    hide *;
    FeedTakes(v);
  }

  lemma LoadStarts(s: System)
    requires s.core.interp.Valid() && s.encoder.Idle?
    ensures var t := Next(s, EncoderLoad);
            && t.encoder == Draining(s.transmit, []) && t.ring == s.ring && t.sent == s.sent
            && t.core == (if s.encodingEpoch == s.transmit then s.core else Cleared(s.core))
            && t.fed == (if s.encodingEpoch == s.transmit then s.fed else [])
  {
  }

  lemma FeedTakes(v: System)
    requires v.core.interp.Valid() && v.encoder.Draining? && v.ring == []
    ensures var u, taken := Next(v, EncoderFeed), v.encoder.pcm;
            && u.encoder.Idle? && u.ring == [] && u.fed == v.fed + taken
            && u.core == (if taken == [] then v.core else Fed(v.core, Values(taken)))
            && FramesOf(u.sent) == FramesOf(v.sent) + (if taken == [] then [] else Emitted(v.core, Values(taken)))
  {
    hide Emitted, Fed, Values;
    if v.encoder.pcm == [] {
      assert v.fed + [] == v.fed && FramesOf(v.sent) + [] == FramesOf(v.sent);
    } else {
      RecordsFrames(v.sent, Emitted(v.core, Values(v.encoder.pcm)), v.fed + v.encoder.pcm);
    }
  }

  /** The frames sent, without the record of what gave them. */
  function FramesOf(sent: seq<Sent>): seq<Frame> {
    seq(|sent|, i requires 0 <= i < |sent| => sent[i].frame)
  }

  lemma RecordsFrames(sent: seq<Sent>, frames: seq<Frame>, fed: seq<Tagged>)
    ensures FramesOf(sent + Records(frames, fed)) == FramesOf(sent) + frames
  {
  }

  // ----- what the threads do to the ring -----

  /** The sample a step puts into the ring: whatever a running callback pushes while there is room. */
  function Pushed(s: System, a: Act): seq<Tagged> {
    match a
    case CallbackPush(v) =>
      if s.callback.Some? && |s.ring| < 4800 then [Tagged(v, s.callback.value.0, s.callback.value.1)] else []
    case _ => []
  }

  /** The sample a step takes out of it. */
  function Popped(s: System, a: Act): seq<Tagged> {
    if a.EncoderPop? && s.encoder.Draining? && s.ring != [] then [s.ring[0]] else []
  }

  function AllPushed(s: System, acts: seq<Act>): seq<Tagged>
    requires s.core.interp.Valid()
    decreases |acts|
  {
    if acts == [] then [] else Pushed(s, acts[0]) + AllPushed(Next(s, acts[0]), acts[1..])
  }

  function AllPopped(s: System, acts: seq<Act>): seq<Tagged>
    requires s.core.interp.Valid()
    decreases |acts|
  {
    if acts == [] then [] else Popped(s, acts[0]) + AllPopped(Next(s, acts[0]), acts[1..])
  }

  lemma OneStep(s: System, a: Act, rest: seq<Act>, acts: seq<Act>)
    requires s.core.interp.Valid() && acts == [a] + rest
    ensures Run(s, acts) == Run(Next(s, a), rest)
    ensures AllPushed(s, acts) == Pushed(s, a) + AllPushed(Next(s, a), rest)
    ensures AllPopped(s, acts) == Popped(s, a) + AllPopped(Next(s, a), rest)
  {
    assert acts[1..] == rest;
    hide Next;
  }

  lemma RingStep(s: System, a: Act)
    requires s.core.interp.Valid()
    ensures s.ring + Pushed(s, a) == Popped(s, a) + Next(s, a).ring
  {
  }

  /** Over any run the ring is first in, first out: nothing is lost in it, doubled or reordered. */
  lemma {:induction false} RingKeepsAll(s: System, acts: seq<Act>)
    requires s.core.interp.Valid()
    ensures s.ring + AllPushed(s, acts) == AllPopped(s, acts) + Run(s, acts).ring
    decreases |acts|
  {
    if acts != [] {
      var t, rest := Next(s, acts[0]), acts[1..];
      RingStep(s, acts[0]);
      OneStep(s, acts[0], rest, acts);
      hide *;
      RingKeepsAll(t, rest);
      Shuffled(s.ring, Pushed(s, acts[0]), Popped(s, acts[0]), t.ring,
        AllPushed(t, rest), AllPopped(t, rest), Run(t, rest).ring);
    }
  }

  lemma Shuffled<T>(a: seq<T>, p: seq<T>, q: seq<T>, b: seq<T>, ps: seq<T>, qs: seq<T>, c: seq<T>)
    requires a + p == q + b && b + ps == qs + c
    ensures a + (p + ps) == (q + qs) + c
  {
    assert a + (p + ps) == (a + p) + ps;
    assert (q + b) + ps == q + (b + ps);
    assert q + (qs + c) == (q + qs) + c;
  }

  // ----- one press, held -----

  ghost predicate NoRelease(acts: seq<Act>) {
    forall i :: 0 <= i < |acts| ==> !acts[i].Release?
  }

  /** The encoder works on the epoch of the press that is held. */
  ghost predicate OnAir(s: System) {
    s.transmit != 0 && s.encodingEpoch == s.transmit
  }

  /** What was taken of the epoch since its load, and what of it is on the way. */
  function Carried(s: System): seq<Tagged> {
    s.fed + (if s.encoder.Draining? then s.encoder.pcm else []) + OfEpoch(s.ring, s.encodingEpoch)
  }

  /** What was sent since is what the samples fed give a fresh core. */
  ghost predicate SentAll(s: System, step: real, before: nat) {
    && step > 0.0 && before <= |s.sent|
    && FramesOf(s.sent[before..]) == Emitted(Core(Fresh(step), [], s.base), Values(s.fed))
  }

  lemma DrainsItsEpoch(s: System, step: real)
    requires Inv(s, step)
    ensures s.core.interp.Valid() && (s.encoder.Draining? ==> s.encoder.active == s.encodingEpoch)
  {
  }

  lemma StepCarries(s: System, a: Act, step: real)
    requires Inv(s, step) && OnAir(s) && !a.Release?
    ensures var t := Next(s, a);
            && OnAir(t) && t.transmit == s.transmit && t.bursts == s.bursts && t.base == s.base
            && Carried(t) == Carried(s) + OfEpoch(Pushed(s, a), s.transmit)
  {
    DrainsItsEpoch(s, step);
    NoneOfEpoch([], s.transmit);
    hide Inv, OfEpoch;
    match a
    case CallbackPush(v) => PushCarries(s, v);
    case EncoderPop => PopCarries(s);
    case EncoderFeed => FeedCarries(s);
    case _ =>
  }

  lemma PushCarries(s: System, v: real)
    requires s.core.interp.Valid() && OnAir(s)
    ensures var t := Next(s, CallbackPush(v));
            && OnAir(t) && t.transmit == s.transmit && t.bursts == s.bursts && t.base == s.base
            && Carried(t) == Carried(s) + OfEpoch(Pushed(s, CallbackPush(v)), s.transmit)
  {
    var more := Pushed(s, CallbackPush(v));
    OfEpochJoin(s.ring, more, s.transmit);
    assert Next(s, CallbackPush(v)).ring == s.ring + more;
    hide OfEpoch, Pushed;
  }

  lemma PopCarries(s: System)
    requires s.core.interp.Valid() && OnAir(s) && (s.encoder.Draining? ==> s.encoder.active == s.encodingEpoch)
    ensures var t := Next(s, EncoderPop);
            && OnAir(t) && t.transmit == s.transmit && t.bursts == s.bursts && t.base == s.base
            && Carried(t) == Carried(s) + OfEpoch([], s.transmit)
  {
    if s.encoder.Draining? && s.ring != [] {
      OfEpochFirst(s.ring, s.transmit);
      Grouped(s.fed, s.encoder.pcm, OfEpoch(s.ring, s.transmit));
    }
  }

  lemma FeedCarries(s: System)
    requires s.core.interp.Valid() && OnAir(s)
    ensures var t := Next(s, EncoderFeed);
            && OnAir(t) && t.transmit == s.transmit && t.bursts == s.bursts && t.base == s.base
            && Carried(t) == Carried(s) + OfEpoch([], s.transmit)
  {
    hide Fed, Emitted, Values, Records;
  }

  lemma StepSends(s: System, a: Act, step: real, before: nat)
    requires Inv(s, step) && OnAir(s) && !a.Release? && SentAll(s, step, before)
    ensures SentAll(Next(s, a), step, before)
  {
    if a.EncoderFeed? && s.encoder.Draining? && s.ring == [] && s.encoder.pcm != [] {
      var pcm, c0 := s.encoder.pcm, Core(Fresh(step), [], s.base);
      var t := Next(s, a);
      var frames := Emitted(s.core, Values(pcm));
      ValuesJoin(s.fed, pcm);
      FeedInPieces(c0, Values(s.fed), Values(pcm));
      assert t.sent[before..] == s.sent[before..] + Records(frames, t.fed);
      RecordsFrames(s.sent[before..], frames, t.fed);
    }
  }

  /** The press is held, the encoder at work on it, and all it took was sent. */
  ghost predicate Talking(s: System, step: real, before: nat) {
    Inv(s, step) && OnAir(s) && SentAll(s, step, before)
  }

  lemma StepTalks(s: System, a: Act, step: real, before: nat)
    requires Talking(s, step, before) && !a.Release?
    ensures var t := Next(s, a);
            && Talking(t, step, before) && t.transmit == s.transmit && t.bursts == s.bursts
            && Carried(t) == Carried(s) + OfEpoch(Pushed(s, a), s.transmit)
  {
    NextKeeps(s, a, step);
    hide Next, Pushed, Carried, SentAll;
    StepCarries(s, a, step);
    StepSends(s, a, step, before);
  }

  /** Over every run in which the press stays held: what the encoder took and what is on its way to it are
      exactly what it had of the epoch and what the callback pushed since. */
  lemma {:induction false} TalkCarries(s: System, acts: seq<Act>, step: real, before: nat)
    requires s.core.interp.Valid() && Talking(s, step, before) && NoRelease(acts)
    ensures var u := Run(s, acts);
            && Talking(u, step, before) && u.transmit == s.transmit && u.bursts == s.bursts
            && Carried(u) == Carried(s) + OfEpoch(AllPushed(s, acts), s.transmit)
    decreases |acts|
  {
    if acts == [] {
      assert Carried(s) + [] == Carried(s);
    } else {
      var t, rest := Next(s, acts[0]), acts[1..];
      assert NoRelease(rest) && !acts[0].Release?;
      OneStep(s, acts[0], rest, acts);
      hide *;
      StepTalks(s, acts[0], step, before);
      TalkCarries(t, rest, step, before);
      OfEpochJoin(Pushed(s, acts[0]), AllPushed(t, rest), s.transmit);
      Grouped(Carried(s), OfEpoch(Pushed(s, acts[0]), s.transmit), OfEpoch(AllPushed(t, rest), s.transmit));
    }
  }

  // ----- from the press on -----

  /** What `EncoderLoad` finds when the press is new to the encoder. */
  lemma LoadGoesOnAir(s: System, step: real)
    requires Inv(s, step) && s.encoder.Idle? && s.transmit != 0 && s.encodingEpoch != s.transmit
    ensures var t := Next(s, EncoderLoad);
            && Talking(t, step, |s.sent|) && t.transmit == s.transmit && t.bursts == s.bursts
            && Carried(t) == OfEpoch(s.ring, s.transmit)
  {
    NextKeeps(s, EncoderLoad, step);
    var t := Next(s, EncoderLoad);
    ClearedCore(s.core);
    assert t.sent[|s.sent|..] == [];
    assert Values([]) == [] && FramesOf([]) == [];
    assert [] + Output(Fresh(step), []) == [];
  }

  /** Between loads, with the key held, the encoder keeps to its epoch. */
  ghost predicate Waiting(s: System, step: real) {
    Inv(s, step) && s.transmit != 0
  }

  /** Neither the press nor the encoder's epoch changed, and a resting encoder rests on. */
  ghost predicate Waited(s: System, t: System) {
    && t.transmit == s.transmit && t.bursts == s.bursts && t.encodingEpoch == s.encodingEpoch
    && (s.encoder.Idle? ==> t.encoder.Idle?)
  }

  lemma StepWaits(s: System, a: Act, step: real)
    requires Waiting(s, step) && !a.Release? && !a.EncoderLoad?
    ensures Waiting(Next(s, a), step) && Waited(s, Next(s, a))
    ensures s.encoder.Idle? ==> Popped(s, a) == []
  {
    assert Inv(Next(s, a), step) by { NextKeeps(s, a, step); }
    hide Inv, Cleared, Fed, Emitted, Values, Records;
  }

  lemma {:induction false} WaitingKeeps(s: System, acts: seq<Act>, step: real)
    requires s.core.interp.Valid() && Waiting(s, step) && NoRelease(acts)
    requires forall i :: 0 <= i < |acts| ==> !acts[i].EncoderLoad?
    ensures Waiting(Run(s, acts), step) && Waited(s, Run(s, acts))
    ensures s.encoder.Idle? ==> AllPopped(s, acts) == []
    decreases |acts|
  {
    if acts != [] {
      var t, rest := Next(s, acts[0]), acts[1..];
      assert NoRelease(rest) && !acts[0].Release?;
      StepWaits(s, acts[0], step);
      OneStep(s, acts[0], rest, acts);
      hide Next, Run, AllPopped, AllPushed, Waiting, NoRelease, Popped;
      WaitingKeeps(t, rest, step);
    }
  }

  /** A press that is new to everyone: no sample in the ring and no load is of its epoch. */
  lemma PressIsNew(p: System, step: real)
    requires Inv(p, step) && p.transmit == 0 && p.bursts + 1 < 0x1_0000_0000
    ensures var s := Next(p, Press);
            && Inv(s, step) && s.transmit != 0 && s.bursts == p.bursts + 1 && s.ring == p.ring
            && s.encoder == p.encoder && s.encodingEpoch != s.transmit && OfEpoch(s.ring, s.transmit) == []
            && s.transmit == EpochOf(s.bursts)
  {
    NextKeeps(p, Press, step);
    var s := Next(p, Press);
    NextEpoch(p.bursts);
    assert s.transmit == EpochOf(s.bursts);
    forall i | 0 <= i < |s.ring| ensures s.ring[i].epoch != s.transmit {
      assert Genuine(p, p.ring[i].epoch, p.ring[i].burst);
      EpochsRepeatExactly(p.ring[i].burst, s.bursts);
    }
    NoneOfEpoch(s.ring, s.transmit);
    if p.encodingEpoch != 0 {
      var burst: nat :| Genuine(p, p.encodingEpoch, burst);
      EpochsRepeatExactly(burst, s.bursts);
    }
  }

  /** What the encoder finds of the press at its load: all that was pushed under it but what an iteration
      begun before had popped. */
  lemma FoundAtLoad(s: System, pre: seq<Act>)
    requires s.core.interp.Valid() && OfEpoch(s.ring, s.transmit) == []
    ensures OfEpoch(AllPushed(s, pre), s.transmit)
         == OfEpoch(AllPopped(s, pre), s.transmit) + OfEpoch(Run(s, pre).ring, s.transmit)
  {
    RingKeepsAll(s, pre);
    OfEpochJoin(s.ring, AllPushed(s, pre), s.transmit);
    OfEpochJoin(AllPopped(s, pre), Run(s, pre).ring, s.transmit);
    assert [] + OfEpoch(AllPushed(s, pre), s.transmit) == OfEpoch(AllPushed(s, pre), s.transmit);
  }

  /** One press, held, in any interleaving: `pre` until the encoder's first load of it, `post` after, until
      the encoder rests with nothing of it left in the ring. What was sent since that load, and the leftover,
      are the resampled samples the encoder took. Those are every sample pushed under the press if and only
      if none was popped before the load, by an iteration begun before the press. */
  lemma TalkIsWhole(p: System, pre: seq<Act>, post: seq<Act>, step: real)
    requires Inv(p, step) && p.transmit == 0 && p.bursts + 1 < 0x1_0000_0000
    requires NoRelease(pre) && (forall i :: 0 <= i < |pre| ==> !pre[i].EncoderLoad?) && NoRelease(post)
    requires var s := Run(Next(p, Press), pre);
             var u := Run(Next(s, EncoderLoad), post);
             s.encoder.Idle? && u.encoder.Idle? && OfEpoch(u.ring, u.transmit) == []
    ensures var pressed := Next(p, Press);
            var s := Run(pressed, pre);
            var t := Next(s, EncoderLoad);
            var u := Run(t, post);
            var said := OfEpoch(AllPushed(pressed, pre), pressed.transmit)
                        + OfEpoch(AllPushed(t, post), pressed.transmit);
            && |s.sent| <= |u.sent|
            && Samples(FramesOf(u.sent[|s.sent|..])) + u.core.buf == Output(Fresh(step), Values(u.fed))
            && (u.fed == said <==> OfEpoch(AllPopped(pressed, pre), pressed.transmit) == [])
            && (p.encoder.Idle? ==> u.fed == said)
  {
    var pressed := Next(p, Press);
    PressIsNew(p, step);
    WaitingKeeps(pressed, pre, step);
    FoundAtLoad(pressed, pre);
    var s := Run(pressed, pre);
    LoadGoesOnAir(s, step);
    var t := Next(s, EncoderLoad);
    hide Next, EpochOf, OfEpoch;
    TalkCarries(t, post, step, |s.sent|);
    var u := Run(t, post);
    SentIsOutput(u, step, |s.sent|);
    var lost, found := OfEpoch(AllPopped(pressed, pre), s.transmit), OfEpoch(s.ring, s.transmit);
    var later := OfEpoch(AllPushed(t, post), s.transmit);
    assert u.fed == found + later by {
      assert u.fed + [] + [] == u.fed;
    }
    assert OfEpoch([], s.transmit) == [] by { NoneOfEpoch([], s.transmit); }
    WholeIfNoneLost(lost, found, later);
  }

  lemma WholeIfNoneLost<T>(lost: seq<T>, found: seq<T>, later: seq<T>)
    ensures found + later == (lost + found) + later <==> lost == []
  {
    if lost == [] {
      assert lost + found == found;
    } else {
      assert |(lost + found) + later| > |found + later|;
    }
  }

  lemma SentIsOutput(u: System, step: real, before: nat)
    requires Inv(u, step) && SentAll(u, step, before)
    ensures Samples(FramesOf(u.sent[before..])) + u.core.buf == Output(Fresh(step), Values(u.fed))
  {
    FramesAreTheOutput(Core(Fresh(step), [], u.base), Values(u.fed));
  }

  /** The samples said under a press are its own. */
  ghost predicate AllUnder(ts: seq<Tagged>, burst: nat) {
    forall i :: 0 <= i < |ts| ==> ts[i].burst == burst
  }

  lemma StepSays(s: System, a: Act, step: real)
    requires Inv(s, step) && s.transmit != 0 && s.bursts < 0x1_0000_0000
    ensures AllUnder(OfEpoch(Pushed(s, a), s.transmit), s.bursts)
  {
    if Pushed(s, a) != [] && s.callback.value.0 == s.transmit {
      EpochsRepeatExactly(s.callback.value.1, s.bursts);
    }
  }

  lemma KeyHeld(s: System, a: Act, step: real)
    requires Inv(s, step) && s.transmit != 0 && !a.Release?
    ensures Inv(Next(s, a), step) && Next(s, a).transmit == s.transmit && Next(s, a).bursts == s.bursts
  {
    NextKeeps(s, a, step);
  }

  lemma {:induction false} SaidUnderThePress(s: System, acts: seq<Act>, step: real)
    requires s.core.interp.Valid() && Inv(s, step) && s.transmit != 0 && NoRelease(acts)
    requires s.bursts < 0x1_0000_0000
    ensures AllUnder(OfEpoch(AllPushed(s, acts), s.transmit), s.bursts)
    decreases |acts|
  {
    if acts != [] {
      var t, rest := Next(s, acts[0]), acts[1..];
      assert NoRelease(rest) && !acts[0].Release?;
      KeyHeld(s, acts[0], step);
      StepSays(s, acts[0], step);
      OneStep(s, acts[0], rest, acts);
      hide Next, Pushed, AllPushed, Inv, NoRelease, OfEpoch;
      OfEpochJoin(Pushed(s, acts[0]), AllPushed(t, rest), s.transmit);
      SaidUnderThePress(t, rest, step);
    }
  }

  // ----- what the callback hears -----

  /** While a key is held and there is room, a callback puts each of its samples into the ring, under the
      press; while none is held, it puts in none. */
  lemma HeldKeyIsHeard(s: System, v: real)
    requires s.core.interp.Valid() && s.callback.None?
    ensures var t := Next(Next(s, CallbackBegin), CallbackPush(v));
            t.ring == if s.transmit != 0 && |s.ring| < 4800 then s.ring + [Tagged(v, s.transmit, s.bursts)] else s.ring
  {
  }

  /** Pressing opens a new epoch, once; letting go closes it; neither touches what is on the way. */
  lemma KeyOpensAndCloses(s: System, step: real)
    requires Inv(s, step)
    ensures var down, up := Next(s, Press), Next(s, Release);
            && (s.transmit == 0 ==> down.transmit == EpochOf(s.bursts + 1) && down.bursts == s.bursts + 1)
            && (s.transmit != 0 ==> down == s)
            && up == s.(transmit := 0)
            && down == s.(transmit := down.transmit, next := down.next, bursts := down.bursts)
  {
    NextEpoch(s.bursts);
    hide EpochOf;
  }

  /** With no key held an iteration empties the ring, feeds nothing and sends nothing; and it leaves nothing of
      the last press to the next. */
  lemma ClosedIterationDiscards(s: System)
    requires s.core.interp.Valid() && s.encoder.Idle? && s.transmit == 0
    ensures var u := Next(Run(Next(s, EncoderLoad), Pops(|s.ring|)), EncoderFeed);
            && u.encoder.Idle? && u.ring == [] && u.sent == s.sent && u.encodingEpoch == 0
            && u.core == (if s.encodingEpoch == 0 then s.core else Cleared(s.core))
  {
    var t := Next(s, EncoderLoad);
    PopsDiscard(t);
  }

  lemma {:induction false} PopsDiscard(s: System)
    requires s.core.interp.Valid() && s.encoder.Draining? && s.encoder.active == 0
    ensures Run(s, Pops(|s.ring|)) == s.(ring := [])
    decreases |s.ring|
  {
    if s.ring != [] {
      var t := Next(s, EncoderPop);
      assert Pops(|s.ring|)[1..] == Pops(|t.ring|);
      PopsDiscard(t);
    }
  }

  /** A sample said into a press can be lost: the iteration that found no key held is still popping. */
  lemma LostBeforeTheLoad(step: real, v: real)
    requires step > 0.0
    ensures var s := Next(Next(Start(step), EncoderLoad), Press);
            var pre := [CallbackBegin, CallbackPush(v), EncoderPop, EncoderFeed];
            && AllPushed(s, pre) == [Tagged(v, 1, 1)] && AllPopped(s, pre) == [Tagged(v, 1, 1)]
            && Run(s, pre).encoder.Idle? && Run(s, pre).ring == []
  {
    var s := Next(Next(Start(step), EncoderLoad), Press);
    var pre := [CallbackBegin, CallbackPush(v), EncoderPop, EncoderFeed];
    var s1 := Next(s, CallbackBegin);
    var s2 := Next(s1, CallbackPush(v));
    var s3 := Next(s2, EncoderPop);
    var s4 := Next(s3, EncoderFeed);
    assert Pushed(s1, CallbackPush(v)) == Popped(s2, EncoderPop) == [Tagged(v, 1, 1)];
    assert s3.ring == [] && s4.encoder.Idle? && s4.ring == [];
    FourSteps(s, pre, s1, s2, s3, s4);
  }

  lemma FourSteps(s: System, acts: seq<Act>, s1: System, s2: System, s3: System, s4: System)
    requires s.core.interp.Valid() && |acts| == 4
    requires s1 == Next(s, acts[0]) && s2 == Next(s1, acts[1]) && s3 == Next(s2, acts[2]) && s4 == Next(s3, acts[3])
    ensures Run(s, acts) == s4
    ensures AllPushed(s, acts) == Pushed(s, acts[0]) + Pushed(s1, acts[1]) + Pushed(s2, acts[2]) + Pushed(s3, acts[3])
    ensures AllPopped(s, acts) == Popped(s, acts[0]) + Popped(s1, acts[1]) + Popped(s2, acts[2]) + Popped(s3, acts[3])
  {
    hide Next, Pushed, Popped;
    OneStep(s, acts[0], acts[1..], acts);
    OneStep(s1, acts[1], acts[2..], acts[1..]);
    OneStep(s2, acts[2], acts[3..], acts[2..]);
    OneStep(s3, acts[3], [], acts[3..]);
  }
}
