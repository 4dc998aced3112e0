/** Push-to-talk bursts: the key, the audio callback and the encoder thread, interleaved step by step.
    Each sample carries the epoch the source gives it and, for the statements only, the number of the
    key press it was taken under. */
module CaptureBursts {
  import opened Common
  import opened Serial
  import opened Capture

  const PCM_RING_SAMPLES := 4800

  datatype Tagged = Tagged(value: real, epoch: int, burst: nat)

  /** The encoder thread: between iterations, or draining the ring for the epoch it loaded. */
  datatype Encoder = Idle | Draining(active: int, pcm: seq<Tagged>)

  /** An emitted frame and every sample fed to the core since the reset before it. */
  datatype Sent = Sent(frame: Frame, fed: seq<Tagged>)

  datatype System = System(
    transmit: int,
    next: int,
    bursts: nat,
    callback: Option<(int, nat)>,
    ring: seq<Tagged>,
    encoder: Encoder,
    encodingEpoch: int,
    core: Core,
    base: Seq,
    fed: seq<Tagged>,
    sent: seq<Sent>)

  datatype Act =
    | Press
    | Release
    | CallbackBegin
    | CallbackPush(value: real)
    | CallbackEnd
    | EncoderLoad
    | EncoderPop
    | EncoderFeed

  function Start(step: real): System {
    System(0, 0, 0, None, [], Idle, 0, Core(Fresh(step), [], 0), 0, [], [])
  }

  function Values(ts: seq<Tagged>): seq<real> {
    seq(|ts|, i requires 0 <= i < |ts| => ts[i].value)
  }

  function Records(frames: seq<Frame>, fed: seq<Tagged>): seq<Sent> {
    seq(|frames|, i requires 0 <= i < |frames| => Sent(frames[i], fed))
  }

  /** One atomic step of one thread. A step that thread cannot take changes nothing. */
  function Next(s: System, a: Act): (t: System)
    requires s.core.interp.Valid()
    ensures t.core.interp.Valid()
  {
    match a
    case Press =>
      if s.transmit != 0 then s
      else
        var bumped := (s.next + 1) % 0x1_0000_0000;
        var epoch := if bumped < 1 then 1 else bumped;
        s.(next := epoch, transmit := epoch, bursts := s.bursts + 1)
    case Release =>
      s.(transmit := 0)
    case CallbackBegin =>
      if s.callback.None? && s.transmit != 0 then s.(callback := Some((s.transmit, s.bursts))) else s
    case CallbackPush(v) =>
      if s.callback.Some? && |s.ring| < PCM_RING_SAMPLES then
        s.(ring := s.ring + [Tagged(v, s.callback.value.0, s.callback.value.1)])
      else s
    case CallbackEnd =>
      s.(callback := None)
    case EncoderLoad =>
      if s.encoder.Draining? then s
      else if s.transmit != s.encodingEpoch then
        s.(core := Cleared(s.core), base := s.core.num, fed := [], encodingEpoch := s.transmit,
           encoder := Draining(s.transmit, []))
      else s.(encoder := Draining(s.transmit, []))
    case EncoderPop =>
      if s.encoder.Draining? && s.ring != [] then
        var t := s.ring[0];
        var keep := s.encoder.active != 0 && t.epoch == s.encoder.active;
        s.(ring := s.ring[1..],
           encoder := if keep then s.encoder.(pcm := s.encoder.pcm + [t]) else s.encoder)
      else s
    case EncoderFeed =>
      if s.encoder.Idle? || s.ring != [] then s
      else if s.encoder.pcm == [] then s.(encoder := Idle)
      else
        var fed := s.fed + s.encoder.pcm;
        s.(core := Fed(s.core, Values(s.encoder.pcm)), fed := fed, encoder := Idle,
           sent := s.sent + Records(Emitted(s.core, Values(s.encoder.pcm)), fed))
  }

  // ----- epochs -----

  /** The epoch of the `b`-th key press: never zero, and the same again only 2^32 - 1 presses later. */
  function EpochOf(b: nat): int
    requires b > 0
  {
    (b - 1) % 0xFFFF_FFFF + 1
  }

  lemma EpochsRepeatExactly(b: nat, c: nat)
    requires b > 0 && c > 0
    ensures EpochOf(b) == EpochOf(c) <==> (b - c) % 0xFFFF_FFFF == 0
    ensures b < 0x1_0000_0000 && c < 0x1_0000_0000 && EpochOf(b) == EpochOf(c) ==> b == c
  {
    assert (b - c) % 0xFFFF_FFFF == ((b - 1) % 0xFFFF_FFFF - (c - 1) % 0xFFFF_FFFF) % 0xFFFF_FFFF;
  }

  // ----- the invariant -----

  predicate Genuine(s: System, epoch: int, burst: nat) {
    0 < burst <= s.bursts && epoch == EpochOf(burst)
  }

  /** No press, or one there was. */
  ghost predicate Known(s: System, epoch: int) {
    epoch == 0 || exists burst: nat :: Genuine(s, epoch, burst)
  }

  predicate AllGenuine(s: System, ts: seq<Tagged>) {
    forall i :: 0 <= i < |ts| ==> Genuine(s, ts[i].epoch, ts[i].burst)
  }

  predicate AllOf(epoch: int, ts: seq<Tagged>) {
    forall i :: 0 <= i < |ts| ==> ts[i].epoch == epoch
  }

  /** The core holds what feeding `fed` to a fresh one, counting frames from `base`, leaves. */
  ghost predicate CoreIs(core: Core, base: Seq, fed: seq<Tagged>) {
    && core.interp.Valid()
    && core == Fed(Core(Fresh(core.interp.step), [], base), Values(fed))
  }

  /** The frame is one of those that the recorded samples, all of one nonzero epoch, give a fresh core. */
  ghost predicate Clean(step: real, r: Sent) {
    && step > 0.0
    && (exists e :: e != 0 && AllOf(e, r.fed))
    && exists base: Seq :: r.frame in Emitted(Core(Fresh(step), [], base), Values(r.fed))
  }

  ghost predicate Inv(s: System, step: real) {
    && step > 0.0 && s.core.interp.step == step
    && s.next == (if s.bursts == 0 then 0 else EpochOf(s.bursts))
    && (s.transmit != 0 ==> s.transmit == s.next && s.bursts > 0)
    && (s.callback.Some? ==> Genuine(s, s.callback.value.0, s.callback.value.1))
    && AllGenuine(s, s.ring)
    && (s.encoder.Draining? ==>
          s.encoder.active == s.encodingEpoch && AllGenuine(s, s.encoder.pcm)
          && AllOf(s.encodingEpoch, s.encoder.pcm) && (s.encoder.pcm != [] ==> s.encodingEpoch != 0))
    && AllGenuine(s, s.fed) && AllOf(s.encodingEpoch, s.fed) && Known(s, s.encodingEpoch)
    && CoreIs(s.core, s.base, s.fed)
    && forall i :: 0 <= i < |s.sent| ==> Clean(step, s.sent[i]) && AllGenuine(s, s.sent[i].fed)
  }

  lemma NextEpoch(b: nat)
    ensures var next := if b == 0 then 0 else EpochOf(b);
            var bumped := (next + 1) % 0x1_0000_0000;
            (if bumped < 1 then 1 else bumped) == EpochOf(b + 1)
  {
  }

  lemma GenuineLater(s: System, t: System, ts: seq<Tagged>)
    requires s.bursts <= t.bursts && AllGenuine(s, ts)
    ensures AllGenuine(t, ts)
  {
  }

  lemma KnownLater(s: System, t: System, epoch: int)
    requires s.bursts <= t.bursts && Known(s, epoch)
    ensures Known(t, epoch)
  {
    if epoch != 0 {
      var burst: nat :| Genuine(s, epoch, burst);
      assert Genuine(t, epoch, burst);
    }
  }

  lemma LoadIsKnown(s: System, t: System)
    requires s.bursts <= t.bursts && (s.transmit != 0 ==> Genuine(s, s.transmit, s.bursts))
    ensures Known(t, s.transmit)
  {
    assert s.transmit != 0 ==> Genuine(t, s.transmit, s.bursts);
  }

  lemma ValuesJoin(a: seq<Tagged>, b: seq<Tagged>)
    ensures Values(a + b) == Values(a) + Values(b)
  {
  }

  lemma ClearedCore(c: Core)
    requires c.interp.Valid()
    ensures CoreIs(Cleared(c), c.num, [])
  {
    assert Values([]) == [];
    assert [] + Output(Fresh(c.interp.step), []) == [];
  }

  lemma FedCore(core: Core, base: Seq, fed: seq<Tagged>, pcm: seq<Tagged>)
    requires CoreIs(core, base, fed)
    ensures CoreIs(Fed(core, Values(pcm)), base, fed + pcm)
    ensures Fed(core, Values(pcm)).interp.step == core.interp.step
    ensures forall f :: f in Emitted(core, Values(pcm)) ==>
                        f in Emitted(Core(Fresh(core.interp.step), [], base), Values(fed + pcm))
  {
    var c0 := Core(Fresh(core.interp.step), [], base);
    ValuesJoin(fed, pcm);
    FeedInPieces(c0, Values(fed), Values(pcm));
  }

  lemma StartInv(step: real)
    requires step > 0.0
    ensures Inv(Start(step), step)
  {
    ClearedCore(Core(Fresh(step), [], 0));
  }

  lemma FeedKeeps(s: System, step: real)
    requires Inv(s, step) && s.encoder.Draining? && s.encoder.pcm != []
    ensures Inv(Next(s, EncoderFeed), step)
  {
    var pcm := s.encoder.pcm;
    var fed := s.fed + pcm;
    FedCore(s.core, s.base, s.fed, pcm);
    var frames := Emitted(s.core, Values(pcm));
    hide Emitted, Fed, Values, CoreIs;
    var t := Next(s, EncoderFeed);
    KnownLater(s, t, s.encodingEpoch);
    if s.ring == [] {
      assert AllOf(s.encodingEpoch, fed);
      forall i | 0 <= i < |t.sent| ensures Clean(step, t.sent[i]) && AllGenuine(t, t.sent[i].fed) {
        if i >= |s.sent| {
          assert t.sent[i] == Sent(frames[i - |s.sent|], fed);
          assert frames[i - |s.sent|] in frames;
        }
      }
    }
  }

  lemma PressKeeps(s: System, step: real)
    requires Inv(s, step)
    ensures Inv(Next(s, Press), step)
  {
    var t := Next(s, Press);
    KnownLater(s, t, s.encodingEpoch);
    NextEpoch(s.bursts);
    hide EpochOf, Known, CoreIs, Clean;
    GenuineLater(s, t, s.ring);
    GenuineLater(s, t, s.fed);
    if s.encoder.Draining? {
      GenuineLater(s, t, s.encoder.pcm);
    }
    forall i | 0 <= i < |s.sent| ensures AllGenuine(t, s.sent[i].fed) {
      GenuineLater(s, t, s.sent[i].fed);
    }
  }

  lemma LoadKeeps(s: System, step: real)
    requires Inv(s, step)
    ensures Inv(Next(s, EncoderLoad), step)
  {
    var t := Next(s, EncoderLoad);
    KnownLater(s, t, s.encodingEpoch);
    ClearedCore(s.core);
    LoadIsKnown(s, t);
    hide Known, CoreIs, Clean, EpochOf;
  }

  /** Every step of every thread keeps the invariant. */
  lemma NextKeeps(s: System, a: Act, step: real)
    requires Inv(s, step)
    ensures Inv(Next(s, a), step)
  {
    match a
    case Press => PressKeeps(s, step);
    case EncoderLoad => LoadKeeps(s, step);
    case EncoderFeed =>
      if s.encoder.Draining? && s.encoder.pcm != [] {
        FeedKeeps(s, step);
      } else {
        KnownLater(s, Next(s, a), s.encodingEpoch);
        hide Known, CoreIs, Clean, EpochOf;
      }
    case _ =>
      KnownLater(s, Next(s, a), s.encodingEpoch);
      hide Known, CoreIs, Clean, EpochOf;
  }

  function Run(s: System, acts: seq<Act>): (t: System)
    requires s.core.interp.Valid()
    ensures t.core.interp.Valid()
    decreases |acts|
  {
    if acts == [] then s else Run(Next(s, acts[0]), acts[1..])
  }

  lemma {:induction false} RunKeeps(s: System, acts: seq<Act>, step: real)
    requires Inv(s, step)
    ensures Inv(Run(s, acts), step)
    decreases |acts|
  {
    if acts != [] {
      NextKeeps(s, acts[0], step);
      RunKeeps(Next(s, acts[0]), acts[1..], step);
    }
  }

  /** Bursts never mix. In every interleaving of key edges, callbacks and encoder steps, each frame
      ever emitted is one that samples of a single nonzero epoch give a fresh resampler and framer, its
      first interpolation anchor included; with fewer than 2^32 presses they are samples of one press. */
  lemma BurstsNeverMix(acts: seq<Act>, step: real, i: nat)
    requires step > 0.0 && i < |Run(Start(step), acts).sent|
    ensures var end := Run(Start(step), acts);
            && Clean(step, end.sent[i])
            && (end.bursts < 0x1_0000_0000 ==>
                  forall j, k :: 0 <= j < |end.sent[i].fed| && 0 <= k < |end.sent[i].fed| ==>
                    end.sent[i].fed[j].burst == end.sent[i].fed[k].burst > 0)
  {
    StartInv(step);
    RunKeeps(Start(step), acts, step);
    var end := Run(Start(step), acts);
    hide Run, Next;
    var fed := end.sent[i].fed;
    assert Clean(step, end.sent[i]) && AllGenuine(end, fed);
    var e :| e != 0 && AllOf(e, fed);
    if end.bursts < 0x1_0000_0000 {
      forall j, k | 0 <= j < |fed| && 0 <= k < |fed| ensures fed[j].burst == fed[k].burst > 0 {
        EpochsRepeatExactly(fed[j].burst, fed[k].burst);
      }
    }
  }
}
