/** The level each held voice must have after a frame, and what a frame may do to a layer. */
module Tuning {
  import opened Common
  import opened SoundState
  import opened Mixing

  function ClipGain(laws: Laws, mix: Mix, g: Group, layerGain: real): real {
    DspGain(laws, ResponseOf(laws, g.cue), g.smooth, Level(g.gain, layerGain), mix.effects)
  }

  /** A losing emitter is muted, never stopped. */
  function EmitterGain(laws: Laws, mix: Mix, e: EmitterVoice, layerGain: real): real {
    DspGain(laws, ResponseOf(laws, e.cue), e.smooth, Level(e.gain, layerGain), if e.won then mix.effects else 0.0)
  }

  /** A session is muted when it is absent, deafened, or lost its voice. */
  function SessionGain(laws: Laws, mix: Mix, s: Session): real
    requires s.Streaming?
  {
    DspGain(laws, VoiceCue, s.smooth, 1.0, if s.present && s.won && !mix.deafen then mix.voice else 0.0)
  }

  /** The level a slot's voice should have; UI voices keep what they had in `base`. */
  function GainAt(laws: Laws, mix: Mix, base: map<Handle, real>, st: Stores, slot: Slot): real
    requires At(st, slot).Some?
  {
    match slot
    case ClipSlot(id, i) => ClipGain(laws, mix, st.clips[id], st.clips[id].layers[i].gain)
    case EmitterSlot(id, i) => EmitterGain(laws, mix, st.emitters[id], st.emitters[id].layers[i].draw.gain)
    case SessionSlot(key) => SessionGain(laws, mix, st.sessions[key])
    case UiSlot(h) => if h in base then base[h] else 0.0
  }

  /** Every voice held in a slot of `done` was last given its level. */
  ghost predicate Tuned(
    laws: Laws, mix: Mix, base: map<Handle, real>, st: Stores, gains: map<Handle, real>, done: iset<Slot>)
  {
    forall slot :: slot in done && At(st, slot).Some? ==>
      At(st, slot).value in gains && gains[At(st, slot).value] == GainAt(laws, mix, base, st, slot)
  }

  /** What was live and is live still has the level it had. */
  ghost predicate KeptGains(was: map<Handle, real>, now: map<Handle, real>) {
    forall h :: h in was && h in now ==> now[h] == was[h]
  }

  lemma MutedIsSilent(laws: Laws, r: Response, s: Smooth, authored: real)
    ensures DspGain(laws, r, s, authored, 0.0) == 0.0
  {
  }

  /** After a frame a losing emitter and an unheard session are muted, not stopped. */
  lemma LosersAreSilent(
    laws: Laws, mix: Mix, base: map<Handle, real>, st: Stores, gains: map<Handle, real>, done: iset<Slot>, slot: Slot)
    requires Tuned(laws, mix, base, st, gains, done) && slot in done && At(st, slot).Some?
    requires match slot
             case EmitterSlot(id, _) => !st.emitters[id].won
             case SessionSlot(key) => !st.sessions[key].present || !st.sessions[key].won || mix.deafen
             case _ => false
    ensures At(st, slot).value in gains && gains[At(st, slot).value] == 0.0
  {
    match slot
    case EmitterSlot(id, i) =>
      var e := st.emitters[id];
      MutedIsSilent(laws, ResponseOf(laws, e.cue), e.smooth, Level(e.gain, e.layers[i].draw.gain));
    case SessionSlot(key) => MutedIsSilent(laws, VoiceCue, st.sessions[key].smooth, 1.0);
  }

  /** The level sent: the response, cut at one, times what was authored, times the bus, cut at four. */
  lemma LevelInFull(laws: Laws, r: Response, s: Smooth, authored: real, bus: real)
    requires SpatialBase(laws, r, s) >= 0.0 && authored >= 0.0 && bus >= 0.0
    ensures var base := SpatialBase(laws, r, s);
            var heard := Level(Level(if base <= 1.0 then base else 1.0, authored), bus);
            DspGain(laws, r, s, authored, bus) == if heard <= 4.0 then heard else 4.0
  {
    hide Level;
    var d := Respond(laws, r, s);
    assert 0.0 <= d <= 1.0;
    ProductIsPositive(d, authored);
    ProductIsPositive(Level(d, authored), bus);
  }

  lemma ProductIsPositive(a: real, b: real)
    requires a >= 0.0 && b >= 0.0
    ensures Level(a, b) >= 0.0 && (a > 0.0 && b > 0.0 ==> Level(a, b) > 0.0)
  {
  }

  lemma UnitLevel(x: real)
    ensures Level(1.0, x) == x
  {
  }

  lemma HeardIfAudible(laws: Laws, r: Response, s: Smooth, authored: real, bus: real)
    requires SpatialBase(laws, r, s) > 0.0 && authored > 0.0 && bus > 0.0
    ensures DspGain(laws, r, s, authored, bus) > 0.0
  {
    hide Level;
    var d := Respond(laws, r, s);
    assert d > 0.0;
    ProductIsPositive(d, authored);
    ProductIsPositive(Level(d, authored), bus);
  }

  /** What would be heard, were it given its voice: the response, the gains and the bus are all positive. */
  predicate CouldSound(laws: Laws, mix: Mix, st: Stores, slot: Slot)
    requires At(st, slot).Some?
  {
    match slot
    case ClipSlot(id, i) =>
      var g := st.clips[id];
      SpatialBase(laws, ResponseOf(laws, g.cue), g.smooth) > 0.0 && g.gain > 0.0 && g.layers[i].gain > 0.0
      && mix.effects > 0.0
    case EmitterSlot(id, i) =>
      var e := st.emitters[id];
      SpatialBase(laws, ResponseOf(laws, e.cue), e.smooth) > 0.0 && e.gain > 0.0 && e.layers[i].draw.gain > 0.0
      && mix.effects > 0.0
    case SessionSlot(key) => SpatialBase(laws, VoiceCue, st.sessions[key].smooth) > 0.0 && mix.voice > 0.0
    case UiSlot(_) => false
  }

  /** After a frame a winner is never silent, unless its response, a gain or its bus is zero. */
  lemma WinnersSound(
    laws: Laws, mix: Mix, base: map<Handle, real>, st: Stores, gains: map<Handle, real>, done: iset<Slot>, slot: Slot)
    requires Tuned(laws, mix, base, st, gains, done) && slot in done && At(st, slot).Some?
    requires CouldSound(laws, mix, st, slot)
    requires match slot
             case EmitterSlot(id, _) => st.emitters[id].won
             case SessionSlot(key) => st.sessions[key].present && st.sessions[key].won && !mix.deafen
             case _ => true
    ensures At(st, slot).value in gains && gains[At(st, slot).value] > 0.0
  {
    hide DspGain, SpatialBase, Level;
    match slot
    case ClipSlot(id, i) =>
      var g := st.clips[id];
      ProductIsPositive(g.gain, g.layers[i].gain);
      HeardIfAudible(laws, ResponseOf(laws, g.cue), g.smooth, Level(g.gain, g.layers[i].gain), mix.effects);
    case EmitterSlot(id, i) =>
      var e := st.emitters[id];
      ProductIsPositive(e.gain, e.layers[i].draw.gain);
      HeardIfAudible(laws, ResponseOf(laws, e.cue), e.smooth, Level(e.gain, e.layers[i].draw.gain), mix.effects);
    case SessionSlot(key) => HeardIfAudible(laws, VoiceCue, st.sessions[key].smooth, 1.0, mix.voice);
  }

  /** One slot is worked on; the others keep their voices and their levels. */
  lemma TunedStep(
    laws: Laws, mix: Mix, base: map<Handle, real>, from: Stores, to: Stores, live: set<Handle>,
    was: map<Handle, real>, now: map<Handle, real>, done: iset<Slot>, at: Slot, v: Option<Handle>)
    requires Owns(from, live, {}) && OneSlot(from, to, at, v) && Tuned(laws, mix, base, from, was, done)
    requires forall slot :: slot != at && At(from, slot).Some? ==>
      GainAt(laws, mix, base, to, slot) == GainAt(laws, mix, base, from, slot)
    requires forall h :: h in live && At(from, at) != Some(h) && h in was ==> h in now && now[h] == was[h]
    requires v.Some? ==> v.value in now && now[v.value] == GainAt(laws, mix, base, to, at)
    ensures Tuned(laws, mix, base, to, now, done + iset{at})
  {
    hide GainAt;
  }

  /** Voices in none of the slots may go. */
  lemma TunedSubset(
    laws: Laws, mix: Mix, base: map<Handle, real>, from: Stores, to: Stores,
    was: map<Handle, real>, now: map<Handle, real>, done: iset<Slot>)
    requires Tuned(laws, mix, base, from, was, done)
    requires forall slot :: At(to, slot).Some? ==>
      At(from, slot) == At(to, slot) && GainAt(laws, mix, base, to, slot) == GainAt(laws, mix, base, from, slot)
    requires forall slot :: At(to, slot).Some? && At(to, slot).value in was ==>
      At(to, slot).value in now && now[At(to, slot).value] == was[At(to, slot).value]
    ensures Tuned(laws, mix, base, to, now, done)
  {
    hide GainAt;
  }

  // ----- what a frame may do -----

  predicate Due(g: Group, i: nat)
    requires i < |g.layers|
  {
    g.won && g.layers[i].Pending? && g.age >= g.layers[i].draw.delay
  }

  /** A due layer sounds or is given up; a sounding layer that lost its voice is done for good. */
  predicate LayerStep(g: Group, was: LayerState, now: LayerState) {
    match was
    case Pending(draw) =>
      if g.won && g.age >= draw.delay then now.Done? || (now.Sounding? && now.gain == draw.gain) else now == was
    case Sounding(_, _) => now == if g.won then was else Done
    case Done => now == Done
  }

  ghost predicate GroupStep(was: Group, now: Group) {
    && now == was.(layers := now.layers)
    && |now.layers| == |was.layers|
    && forall i :: 0 <= i < |was.layers| ==> LayerStep(was, was.layers[i], now.layers[i])
  }

  /** A layer with a voice keeps it; one without may get one once due, if its group won. */
  predicate EmitterLayerStep(e: EmitterVoice, was: EmitterLayer, now: EmitterLayer) {
    && now.draw == was.draw
    && (was.voice.Some? || !e.won || e.age < was.draw.delay ==> now == was)
  }

  ghost predicate EmitterStep(was: EmitterVoice, now: EmitterVoice) {
    && now == was.(layers := now.layers)
    && |now.layers| == |was.layers|
    && forall i :: 0 <= i < |was.layers| ==> EmitterLayerStep(was, was.layers[i], now.layers[i])
  }

  function WithLayer(st: Stores, id: nat, i: nat, l: LayerState): Stores
    requires id in st.clips && i < |st.clips[id].layers|
  {
    st.(clips := st.clips[id := st.clips[id].(layers := st.clips[id].layers[i := l])])
  }

  function WithVoice(st: Stores, id: nat, i: nat, v: Option<Handle>): Stores
    requires id in st.emitters && i < |st.emitters[id].layers|
  {
    var e := st.emitters[id];
    st.(emitters := st.emitters[id := e.(layers := e.layers[i := e.layers[i].(voice := v)])])
  }

  /** The level depends on nothing in the layers but the layer's own gain. */
  lemma SameClipGain(laws: Laws, mix: Mix, a: Group, b: Group, layerGain: real)
    requires b == a.(layers := b.layers)
    ensures ClipGain(laws, mix, b, layerGain) == ClipGain(laws, mix, a, layerGain)
  {
    assert b.cue == a.cue && b.smooth == a.smooth && b.gain == a.gain;
  }

  lemma SameEmitterGain(laws: Laws, mix: Mix, a: EmitterVoice, b: EmitterVoice, layerGain: real)
    requires b == a.(layers := b.layers)
    ensures EmitterGain(laws, mix, b, layerGain) == EmitterGain(laws, mix, a, layerGain)
  {
    assert b.cue == a.cue && b.smooth == a.smooth && b.gain == a.gain;
  }

  lemma WithLayerKeepsGains(laws: Laws, mix: Mix, base: map<Handle, real>, st: Stores, id: nat, i: nat, l: LayerState)
    requires id in st.clips && i < |st.clips[id].layers| && DistinctUi(st.ui)
    ensures OneSlot(st, WithLayer(st, id, i, l), ClipSlot(id, i), LayerVoice(l))
    ensures forall slot :: slot != ClipSlot(id, i) && At(st, slot).Some? ==>
      GainAt(laws, mix, base, WithLayer(st, id, i, l), slot) == GainAt(laws, mix, base, st, slot)
    ensures l.Sounding? ==>
      GainAt(laws, mix, base, WithLayer(st, id, i, l), ClipSlot(id, i)) == ClipGain(laws, mix, st.clips[id], l.gain)
  {
    var to := WithLayer(st, id, i, l);
    ClipLayerSet(st, id, i, l, to);
    hide ClipGain, EmitterGain, SessionGain;
    forall slot | slot != ClipSlot(id, i) && At(st, slot).Some?
      ensures GainAt(laws, mix, base, to, slot) == GainAt(laws, mix, base, st, slot)
    {
      if slot.ClipSlot? && slot.id == id {
        SameClipGain(laws, mix, st.clips[id], to.clips[id], st.clips[id].layers[slot.layer].gain);
      }
    }
    if l.Sounding? {
      SameClipGain(laws, mix, st.clips[id], to.clips[id], l.gain);
    }
  }

  lemma WithVoiceKeepsGains(
    laws: Laws, mix: Mix, base: map<Handle, real>, st: Stores, id: nat, i: nat, v: Option<Handle>)
    requires id in st.emitters && i < |st.emitters[id].layers| && DistinctUi(st.ui)
    ensures OneSlot(st, WithVoice(st, id, i, v), EmitterSlot(id, i), v)
    ensures forall slot :: slot != EmitterSlot(id, i) && At(st, slot).Some? ==>
      GainAt(laws, mix, base, WithVoice(st, id, i, v), slot) == GainAt(laws, mix, base, st, slot)
    ensures v.Some? ==>
      GainAt(laws, mix, base, WithVoice(st, id, i, v), EmitterSlot(id, i))
      == EmitterGain(laws, mix, st.emitters[id], st.emitters[id].layers[i].draw.gain)
  {
    var to := WithVoice(st, id, i, v);
    EmitterLayerSet(st, id, i, v, to);
    hide ClipGain, EmitterGain, SessionGain;
    forall slot | slot != EmitterSlot(id, i) && At(st, slot).Some?
      ensures GainAt(laws, mix, base, to, slot) == GainAt(laws, mix, base, st, slot)
    {
      if slot.EmitterSlot? && slot.id == id {
        SameEmitterGain(laws, mix, st.emitters[id], to.emitters[id], st.emitters[id].layers[slot.layer].draw.gain);
      }
    }
    SameEmitterGain(laws, mix, st.emitters[id], to.emitters[id], st.emitters[id].layers[i].draw.gain);
  }
}
