/** Ranking never starves a louder group: no level a frame applies exceeds the audibility its source
    was ranked by. */
module Loudness {
  import opened Common
  import opened Voice
  import opened SoundState
  import opened Mixing
  import opened Tuning
  import opened Budget
  import opened SoundSystems
  import Ranking

  /** What the catalog checks when it loads: drawn gains lie between zero and the cue's loudest; and no
      response curve is negative. */
  ghost predicate Authored(laws: Laws) {
    && (forall cue: int, id: nat, i: nat :: i < |DrawsOf(laws, cue, id)| ==>
          0.0 <= DrawsOf(laws, cue, id)[i].gain <= PeakOf(laws, cue))
    && (forall r, s :: SpatialBase(laws, r, s) >= 0.0)
  }

  ghost predicate UnitMix(mix: Mix) {
    0.0 <= mix.effects <= 1.0 && 0.0 <= mix.voice <= 1.0
  }

  predicate LayerWithin(l: LayerState, peak: real) {
    match l
    case Pending(draw) => 0.0 <= draw.gain <= peak
    case Sounding(_, gain) => 0.0 <= gain <= peak
    case Done => true
  }

  /** The group's layers were drawn for its cue. */
  ghost predicate GroupWithin(laws: Laws, g: Group) {
    g.gain >= 0.0 && forall i :: 0 <= i < |g.layers| ==> LayerWithin(g.layers[i], PeakOf(laws, g.cue))
  }

  ghost predicate EmitterWithin(e: EmitterVoice) {
    e.gain >= 0.0 && forall i :: 0 <= i < |e.layers| ==> e.layers[i].draw.gain >= 0.0
  }

  ghost predicate ClipsWithin(laws: Laws, clips: map<nat, Group>) {
    forall id :: id in clips ==> GroupWithin(laws, clips[id])
  }

  ghost predicate EmittersWithin(emitters: map<nat, EmitterVoice>) {
    forall id :: id in emitters ==> EmitterWithin(emitters[id])
  }

  ghost predicate Within(laws: Laws, st: Stores) {
    ClipsWithin(laws, st.clips) && EmittersWithin(st.emitters)
  }

  ghost predicate NonNegative(frame: Frame) {
    && (forall i :: 0 <= i < |frame.occurrences| ==> frame.occurrences[i].gain >= 0.0)
    && (forall i :: 0 <= i < |frame.emitters| ==> frame.emitters[i].gain >= 0.0)
  }

  // ----- one source -----

  lemma {:induction false} PeakDrawBounds(layers: seq<EmitterLayer>, i: nat)
    requires i < |layers|
    ensures layers[i].draw.gain <= PeakDraw(layers)
  {
    if i < |layers| - 1 {
      PeakDrawBounds(layers[..|layers| - 1], i);
    }
  }

  /** A clip layer is never louder than its group was ranked. */
  lemma ClipLevelWithin(laws: Laws, mix: Mix, id: nat, g: Group, i: nat)
    requires Authored(laws) && UnitMix(mix) && GroupWithin(laws, g) && i < |g.layers| && g.layers[i].Sounding?
    ensures ClipGain(laws, mix, g, g.layers[i].gain) <= ClipCandidate(laws, id, g).audibility
  {
    hide DspGain, Audibility, SpatialBase, Level;
    assert LayerWithin(g.layers[i], PeakOf(laws, g.cue));
    AudibilityBoundsGain(
      laws, ResponseOf(laws, g.cue), g.smooth, g.gain, g.layers[i].gain, PeakOf(laws, g.cue), mix.effects);
  }

  /** Nor is an emitter's layer, muted ones included. */
  lemma EmitterLevelWithin(laws: Laws, mix: Mix, id: nat, e: EmitterVoice, i: nat)
    requires Authored(laws) && UnitMix(mix) && EmitterWithin(e) && i < |e.layers|
    ensures EmitterGain(laws, mix, e, e.layers[i].draw.gain) <= EmitterCandidate(laws, id, e).audibility
  {
    hide DspGain, Audibility, SpatialBase, Level;
    PeakDrawBounds(e.layers, i);
    AudibilityBoundsGain(laws, ResponseOf(laws, e.cue), e.smooth, e.gain, e.layers[i].draw.gain, PeakDraw(e.layers),
      if e.won then mix.effects else 0.0);
  }

  lemma SessionLevelWithin(laws: Laws, mix: Mix, key: nat, s: Session)
    requires Authored(laws) && UnitMix(mix) && s.Streaming?
    ensures SessionGain(laws, mix, s) <= VoiceCandidate(laws, key, s).audibility
  {
    DspBelow(laws, VoiceCue, s.smooth, 1.0, 1.0, if s.present && s.won && !mix.deafen then mix.voice else 0.0);
  }

  // ----- what a frame keeps -----

  lemma NewbornWithin(laws: Laws, o: Occurrence)
    requires Authored(laws) && o.gain >= 0.0
    ensures GroupWithin(laws, Newborn(laws, o))
  {
    var g := Newborn(laws, o);
    forall i | 0 <= i < |g.layers| ensures LayerWithin(g.layers[i], PeakOf(laws, g.cue)) {
      assert g.layers[i] == Pending(DrawsOf(laws, o.cue, o.id)[i]);
    }
  }

  lemma NewEmitterWithin(laws: Laws, e: Emitter)
    requires Authored(laws) && e.gain >= 0.0
    ensures EmitterWithin(NewEmitter(laws, e))
  {
    var v := NewEmitter(laws, e);
    forall i | 0 <= i < |v.layers| ensures v.layers[i].draw.gain >= 0.0 {
      assert v.layers[i].draw == DrawsOf(laws, e.cue, Salted(e.id))[i];
    }
  }

  lemma {:induction false} RealizedWithin(laws: Laws, clips: map<nat, Group>, mark: Option<nat>, occs: seq<Occurrence>)
    requires Authored(laws) && ClipsWithin(laws, clips)
    requires forall i :: 0 <= i < |occs| ==> occs[i].gain >= 0.0
    ensures ClipsWithin(laws, Realized(laws, clips, mark, occs))
  {
    if occs != [] {
      RealizedWithin(laws, clips, mark, occs[..|occs| - 1]);
      NewbornWithin(laws, occs[|occs| - 1]);
    }
  }

  lemma {:induction false} FoundIsListed(table: seq<Emitter>, id: nat)
    requires FindEmitter(table, id).Some?
    ensures exists i :: 0 <= i < |table| && table[i] == FindEmitter(table, id).value
  {
    if table[0].id != id {
      FoundIsListed(table[1..], id);
      var i :| 0 <= i < |table[1..]| && table[1..][i] == FindEmitter(table, id).value;
      assert table[i + 1] == FindEmitter(table, id).value;
    }
  }

  lemma ReconciledWithin(laws: Laws, was: map<nat, EmitterVoice>, table: seq<Emitter>)
    requires Authored(laws) && EmittersWithin(was) && forall i :: 0 <= i < |table| ==> table[i].gain >= 0.0
    ensures EmittersWithin(Reconciled(laws, was, table))
  {
    hide NewEmitter, Authored;
    forall id | id in Reconciled(laws, was, table) ensures EmitterWithin(Reconciled(laws, was, table)[id]) {
      FoundIsListed(table, id);
      var e := FindEmitter(table, id).value;
      NewEmitterWithin(laws, e);
      if e.id in was {
        assert EmitterWithin(was[e.id]);
      }
    }
  }

  /** Aged, joined by new sources, observed and marked: all within still. */
  lemma RankedWithin(
    laws: Laws, st: Stores, mark: Option<nat>, frame: Frame, w: Window, cands: seq<Ranking.Candidate>)
    requires Authored(laws) && Within(laws, st) && NonNegative(frame)
    ensures Within(laws, Ranked(laws, st, mark, frame, w, cands))
  {
    hide Authored, Observe, Realized, Reconciled, NewEmitter;
    RealizedWithin(laws, Grown(st.clips, frame.dt), mark, frame.occurrences);
    ReconciledWithin(laws, GrownEmitters(st.emitters, frame.dt), frame.emitters);
  }

  lemma GroupStepWithin(laws: Laws, was: Group, now: Group)
    requires GroupWithin(laws, was) && GroupStep(was, now)
    ensures GroupWithin(laws, now)
  {
    forall i | 0 <= i < |now.layers| ensures LayerWithin(now.layers[i], PeakOf(laws, now.cue)) {
      assert LayerWithin(was.layers[i], PeakOf(laws, was.cue));
      assert LayerStep(was, was.layers[i], now.layers[i]);
    }
  }

  lemma EmitterStepWithin(was: EmitterVoice, now: EmitterVoice)
    requires EmitterWithin(was) && EmitterStep(was, now)
    ensures EmitterWithin(now)
  {
    forall i | 0 <= i < |now.layers| ensures now.layers[i].draw.gain >= 0.0 {
      assert EmitterLayerStep(was, was.layers[i], now.layers[i]);
    }
  }

  lemma SteppedWithin(laws: Laws, ranked: Stores, now: Stores)
    requires Within(laws, ranked) && Stepped(ranked, now)
    ensures Within(laws, now)
  {
    hide GroupWithin, EmitterWithin, GroupStep, EmitterStep;
    forall id | id in now.clips ensures GroupWithin(laws, now.clips[id]) {
      GroupStepWithin(laws, ranked.clips[id], now.clips[id]);
    }
    forall id | id in now.emitters ensures EmitterWithin(now.emitters[id]) {
      EmitterStepWithin(ranked.emitters[id], now.emitters[id]);
    }
  }

  /** A mixed frame keeps every source within what was authored for it. */
  lemma FrameKeepsWithin(
    laws: Laws, st: Stores, mark: Option<nat>, frame: Frame, w: Window, cands: seq<Ranking.Candidate>, now: Stores)
    requires Authored(laws) && Within(laws, st) && NonNegative(frame)
    requires FrameOf(laws, Ranked(laws, st, mark, frame, w, cands), now)
    ensures Within(laws, now)
  {
    hide Authored, Within, Ranked, Stepped;
    RankedWithin(laws, st, mark, frame, w, cands);
    SteppedWithin(laws, Ranked(laws, st, mark, frame, w, cands), now);
  }

  // ----- a whole frame -----

  /** A source that stands for the budget and may sound. */
  predicate Audible(st: Stores, slot: Slot) {
    match slot
    case SessionSlot(key) => Heard(st.sessions, key)
    case UiSlot(_) => false
    case _ => true
  }

  lemma {:induction false} SamePeakDraw(a: seq<EmitterLayer>, b: seq<EmitterLayer>)
    requires |a| == |b| && forall i :: 0 <= i < |a| ==> a[i].draw == b[i].draw
    ensures PeakDraw(a) == PeakDraw(b)
  {
    if a != [] {
      SamePeakDraw(a[..|a| - 1], b[..|b| - 1]);
    }
  }

  /** Marking and stepping leave the audibility a source was ranked by. */
  lemma SameAudibility(laws: Laws, sourced: Stores, won: set<Ranking.GroupKey>, now: Stores, slot: Slot)
    requires Stepped(Marked(sourced, won), now) && At(now, slot).Some? && Audible(now, slot)
    ensures Stands(sourced, KeyOf(slot)) && Stands(now, KeyOf(slot))
    ensures CandidateOf(laws, now, KeyOf(slot)).audibility == CandidateOf(laws, sourced, KeyOf(slot)).audibility
  {
    var ranked := Marked(sourced, won);
    match slot
    case ClipSlot(id, _) =>
      assert GroupStep(ranked.clips[id], now.clips[id]);
    case EmitterSlot(id, _) =>
      var was, e := ranked.emitters[id], now.emitters[id];
      assert EmitterStep(was, e);
      forall i | 0 <= i < |e.layers| ensures e.layers[i].draw == was.layers[i].draw {
        assert EmitterLayerStep(was, was.layers[i], e.layers[i]);
      }
      SamePeakDraw(e.layers, was.layers);
    case SessionSlot(key) =>
  }

  /** The audibility of the source a voice is held for, as its place in the stores gives it. */
  function AudibilityAt(laws: Laws, st: Stores, slot: Slot): real
    requires At(st, slot).Some? && !slot.UiSlot?
  {
    match slot
    case ClipSlot(id, _) => ClipCandidate(laws, id, st.clips[id]).audibility
    case EmitterSlot(id, _) => EmitterCandidate(laws, id, st.emitters[id]).audibility
    case SessionSlot(key) => VoiceCandidate(laws, key, st.sessions[key]).audibility
  }

  lemma LevelWithin(laws: Laws, mix: Mix, base: map<Handle, real>, now: Stores, slot: Slot)
    requires Authored(laws) && UnitMix(mix) && Within(laws, now) && At(now, slot).Some? && !slot.UiSlot?
    ensures GainAt(laws, mix, base, now, slot) <= AudibilityAt(laws, now, slot)
  {
    hide Authored, ClipGain, EmitterGain, SessionGain, ClipCandidate, EmitterCandidate, VoiceCandidate, GroupWithin,
      EmitterWithin;
    match slot
    case ClipSlot(id, i) => ClipLevelWithin(laws, mix, id, now.clips[id], i);
    case EmitterSlot(id, i) => EmitterLevelWithin(laws, mix, id, now.emitters[id], i);
    case SessionSlot(key) => SessionLevelWithin(laws, mix, key, now.sessions[key]);
  }

  lemma AudibilityIsRanked(laws: Laws, st: Stores, slot: Slot)
    requires At(st, slot).Some? && Audible(st, slot)
    ensures Stands(st, KeyOf(slot)) && !slot.UiSlot?
    ensures CandidateOf(laws, st, KeyOf(slot)).audibility == AudibilityAt(laws, st, slot)
  {
  }

  /** After a mixed frame, the level of every voice held for a ranked source is at most the audibility
      its source had in the ranking: a group that lost its place was never louder than it ranked. */
  lemma AppliedWithinRanked(
    laws: Laws, mix: Mix, base: map<Handle, real>, st: Stores, mark: Option<nat>, frame: Frame, w: Window,
    cands: seq<Ranking.Candidate>, now: Stores, gains: map<Handle, real>, slot: Slot)
    requires Authored(laws) && UnitMix(mix) && Within(laws, st) && NonNegative(frame)
    requires Lists(laws, Sourced(laws, st, mark, frame, w), cands)
    requires FrameOf(laws, Ranked(laws, st, mark, frame, w, cands), now)
    requires Tuned(laws, mix, base, now, gains, AllSlots()) && At(now, slot).Some? && Audible(now, slot)
    ensures At(now, slot).value in gains
    ensures exists i ::
      0 <= i < |cands| && cands[i].key == KeyOf(slot) && gains[At(now, slot).value] <= cands[i].audibility
  {
    hide Authored, Within, Sourced, Stepped, GainAt, At, CandidateOf, Stands, NonNegative, AudibilityAt;
    FrameKeepsWithin(laws, st, mark, frame, w, cands, now);
    SameAudibility(laws, Sourced(laws, st, mark, frame, w), Ranking.Winners(cands, laws.maxVoices), now, slot);
    LevelWithin(laws, mix, base, now, slot);
    AudibilityIsRanked(laws, now, slot);
    assert Listed(cands, KeyOf(slot));
    var i :| 0 <= i < |cands| && cands[i].key == KeyOf(slot);
    assert cands[i] == CandidateOf(laws, Sourced(laws, st, mark, frame, w), cands[i].key);
  }

  // ----- at every moment -----

  /** No voice held for a clip, a loop or a session is louder than its source is audible. */
  ghost predicate NoLouder(laws: Laws, st: Stores, gains: map<Handle, real>) {
    forall slot :: At(st, slot).Some? && !slot.UiSlot? ==>
      At(st, slot).value in gains && gains[At(st, slot).value] <= AudibilityAt(laws, st, slot)
  }

  /** What holds at every moment of a run over an authored catalog. */
  ghost predicate Bounded(laws: Laws, mix: Mix, st: Stores, gains: map<Handle, real>) {
    UnitMix(mix) && Within(laws, st) && NoLouder(laws, st, gains)
  }

  /** A mixed frame gives every voice its level anew. */
  lemma FrameBounds(
    laws: Laws, mix: Mix, base: map<Handle, real>, st: Stores, mark: Option<nat>, frame: Frame, w: Window,
    cands: seq<Ranking.Candidate>, now: Stores, gains: map<Handle, real>)
    requires Authored(laws) && UnitMix(mix) && Within(laws, st) && NonNegative(frame)
    requires FrameOf(laws, Ranked(laws, st, mark, frame, w, cands), now)
    requires Tuned(laws, mix, base, now, gains, AllSlots())
    ensures Bounded(laws, mix, now, gains)
  {
    hide Authored, Within, Ranked, FrameOf, GainAt, At, AudibilityAt, NonNegative;
    FrameKeepsWithin(laws, st, mark, frame, w, cands, now);
    forall slot | At(now, slot).Some? && !slot.UiSlot?
      ensures At(now, slot).value in gains && gains[At(now, slot).value] <= AudibilityAt(laws, now, slot)
    {
      LevelWithin(laws, mix, base, now, slot);
    }
  }

  lemma SilenceIsWithin(laws: Laws, st: Stores, slot: Slot)
    requires Authored(laws) && At(st, slot).Some? && slot.SessionSlot?
    ensures 0.0 <= AudibilityAt(laws, st, slot)
  {
    var s := st.sessions[slot.key].smooth;
    assert SpatialBase(laws, VoiceCue, s) >= 0.0;
  }

  /** A voice that stays in its place with its level, its source as audible as before, stays within. */
  ghost predicate SameVoice(
    laws: Laws, st: Stores, now: Stores, gains: map<Handle, real>, levels: map<Handle, real>, slot: Slot)
    requires At(now, slot).Some? && !slot.UiSlot?
  {
    var h := At(now, slot).value;
    && At(st, slot) == Some(h) && AudibilityAt(laws, now, slot) == AudibilityAt(laws, st, slot)
    && h in levels && (h in gains ==> levels[h] == gains[h])
  }

  lemma QuietlyBounded(
    laws: Laws, mix: Mix, st: Stores, now: Stores, gains: map<Handle, real>, levels: map<Handle, real>)
    requires Authored(laws) && UnitMix(mix) && Within(laws, st) && NoLouder(laws, st, gains)
    requires now.clips == st.clips && now.emitters == st.emitters
    requires forall slot :: At(now, slot).Some? && !slot.UiSlot? ==>
      || SameVoice(laws, st, now, gains, levels, slot)
      || (slot.SessionSlot? && At(now, slot).value in levels && levels[At(now, slot).value] == 0.0)
    ensures Bounded(laws, mix, now, levels)
  {
    hide Authored, At, AudibilityAt;
    forall slot | At(now, slot).Some? && !slot.UiSlot?
      ensures At(now, slot).value in levels && levels[At(now, slot).value] <= AudibilityAt(laws, now, slot)
    {
      if slot.SessionSlot? {
        SilenceIsWithin(laws, now, slot);
      }
    }
  }

  /** Only UI voices, or the mix, changed. */
  lemma UiBounds(
    laws: Laws, mix: Mix, now: Mix, st: Stores, to: Stores, gains: map<Handle, real>, levels: map<Handle, real>)
    requires Authored(laws) && Bounded(laws, mix, st, gains) && UnitMix(now)
    requires to == st.(ui := to.ui) && Owns(to, levels.Keys, {}) && KeptGains(gains, levels)
    ensures Bounded(laws, now, to, levels)
  {
    hide Authored, Within;
    forall slot | At(to, slot).Some? && !slot.UiSlot? ensures SameVoice(laws, st, to, gains, levels, slot) {
      hide ClipCandidate, EmitterCandidate, VoiceCandidate;
      assert At(st, slot) == At(to, slot);
    }
    QuietlyBounded(laws, now, st, to, gains, levels);
  }

  /** The session of one key changed: it has no stream now, a new one at level zero, or the same one. */
  lemma SessionBounds(
    laws: Laws, mix: Mix, st: Stores, to: Stores, key: nat, gains: map<Handle, real>, levels: map<Handle, real>)
    requires Authored(laws) && Bounded(laws, mix, st, gains)
    requires to == st.(sessions := to.sessions) && Owns(to, levels.Keys, {}) && KeptGains(gains, levels)
    requires forall k :: k != key ==> (k in to.sessions <==> k in st.sessions)
    requires forall k :: k != key && k in to.sessions ==> to.sessions[k] == st.sessions[k]
    requires key in to.sessions && to.sessions[key].Streaming? ==>
      || (to.sessions[key].voice in levels && levels[to.sessions[key].voice] == 0.0)
      || (key in st.sessions && st.sessions[key].Streaming? && st.sessions[key].voice == to.sessions[key].voice
          && st.sessions[key].smooth == to.sessions[key].smooth)
    ensures Bounded(laws, mix, to, levels)
  {
    hide Authored, Within;
    forall slot | At(to, slot).Some? && !slot.UiSlot?
      ensures || SameVoice(laws, st, to, gains, levels, slot)
              || (slot.SessionSlot? && At(to, slot).value in levels && levels[At(to, slot).value] == 0.0)
    {
      hide ClipCandidate, EmitterCandidate, Audibility;
      assert At(to, slot).value in levels;
    }
    QuietlyBounded(laws, mix, st, to, gains, levels);
  }

  lemma NothingIsLoud(laws: Laws, mix: Mix, gains: map<Handle, real>)
    requires UnitMix(mix)
    ensures Bounded(laws, mix, Stores(map[], map[], map[], []), gains)
  {
  }
}
