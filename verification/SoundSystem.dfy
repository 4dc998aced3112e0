/** The single audio committer: four stores of voices over one backend. */
module SoundSystems {
  import opened Common
  import opened Voice
  import opened SoundState
  import opened Backends
  import opened Mixing
  import opened Tuning
  import opened Asking
  import opened Budget
  import Sessions
  import Ranking

  datatype Frame = Frame(
    dt: real, listener: Listener, occurrences: seq<Occurrence>, emitters: seq<Emitter>, window: Option<Window>)

  // ----- letting a whole group's voices go -----

  function ClipVoices(g: Group): seq<Option<Handle>> {
    seq(|g.layers|, i requires 0 <= i < |g.layers| => LayerVoice(g.layers[i]))
  }

  function VoicesOfEmitter(e: EmitterVoice): seq<Option<Handle>> {
    seq(|e.layers|, i requires 0 <= i < |e.layers| => e.layers[i].voice)
  }

  ghost function Holding(vs: seq<Option<Handle>>, from: nat): set<Handle> {
    set i | from <= i < |vs| && vs[i].Some? :: vs[i].value
  }

  ghost predicate DistinctVoices(vs: seq<Option<Handle>>) {
    forall i, j :: 0 <= i < j < |vs| && vs[i].Some? ==> vs[i] != vs[j]
  }

  lemma GroupTaken(st: Stores, id: nat, to: Stores, live: set<Handle>)
    requires Owns(st, live, {}) && id in st.clips && to == st.(clips := st.clips - {id})
    ensures Owns(to, live, Holding(ClipVoices(st.clips[id]), 0)) && DistinctVoices(ClipVoices(st.clips[id]))
  {
    var vs := ClipVoices(st.clips[id]);
    forall i | 0 <= i < |vs| ensures At(st, ClipSlot(id, i)) == vs[i] {
    }
    forall slot ensures At(to, slot) == if slot.ClipSlot? && slot.id == id then None else At(st, slot) {
    }
    VoicesTaken(st, to, live, vs, set i: nat | i < |vs| :: ClipSlot(id, i)) by {
      forall i: nat, j: nat | i < j < |vs| ensures vs[i].Some? ==> vs[i] != vs[j] {
        assert At(st, ClipSlot(id, i)) == vs[i] && At(st, ClipSlot(id, j)) == vs[j];
      }
    }
  }

  lemma EmitterTaken(st: Stores, id: nat, to: Stores, live: set<Handle>)
    requires Owns(st, live, {}) && id in st.emitters && to == st.(emitters := st.emitters - {id})
    ensures Owns(to, live, Holding(VoicesOfEmitter(st.emitters[id]), 0))
      && DistinctVoices(VoicesOfEmitter(st.emitters[id]))
  {
    var vs := VoicesOfEmitter(st.emitters[id]);
    forall i | 0 <= i < |vs| ensures At(st, EmitterSlot(id, i)) == vs[i] {
    }
    forall slot ensures At(to, slot) == if slot.EmitterSlot? && slot.id == id then None else At(st, slot) {
    }
    VoicesTaken(st, to, live, vs, set i: nat | i < |vs| :: EmitterSlot(id, i)) by {
      forall i: nat, j: nat | i < j < |vs| ensures vs[i].Some? ==> vs[i] != vs[j] {
        assert At(st, EmitterSlot(id, i)) == vs[i] && At(st, EmitterSlot(id, j)) == vs[j];
      }
    }
  }

  /** Emptying some slots sets their voices loose. */
  lemma VoicesTaken(st: Stores, to: Stores, live: set<Handle>, vs: seq<Option<Handle>>, slots: set<Slot>)
    requires Owns(st, live, {}) && DistinctUi(to.ui)
    requires forall slot :: At(to, slot) == if slot in slots then None else At(st, slot)
    requires forall h :: h in Holding(vs, 0) <==> exists slot :: slot in slots && At(st, slot) == Some(h)
    ensures Owns(to, live, Holding(vs, 0))
  {
    var loose := Holding(vs, 0);
    forall h | h in live && h !in loose ensures Held(to, h) {
      assert Held(st, h);
      var slot :| At(st, slot) == Some(h);
      assert At(to, slot) == Some(h);
    }
  }

  lemma HoldingStep(vs: seq<Option<Handle>>, i: nat)
    requires DistinctVoices(vs) && i < |vs|
    ensures Holding(vs, i) == Holding(vs, i + 1) + (if vs[i].Some? then {vs[i].value} else {})
    ensures vs[i].Some? ==> vs[i].value !in Holding(vs, i + 1)
  {
  }

  method StopVoices(backend: Backend, vs: seq<Option<Handle>>, ghost st: Stores)
    requires backend.Valid() && Owns(st, backend.live, Holding(vs, 0)) && DistinctVoices(vs)
    modifies backend`live, backend`gains, backend`stopped, backend`log
    ensures backend.Valid() && Owns(st, backend.live, {})
    ensures backend.live == old(backend.live) - Holding(vs, 0)
    ensures backend.gains == old(backend.gains) - Holding(vs, 0)
    ensures SameRequests(old(backend.log), backend.log)
  {
    var i := 0;
    assert Holding(vs, i) <= backend.live && Holding(vs, |vs|) == {};
    hide StoppedOnce, Owns, RequestsFor, Holding, DistinctVoices;
    while i < |vs|
      invariant 0 <= i <= |vs|
      invariant backend.Valid() && Owns(st, backend.live, Holding(vs, i))
      invariant Holding(vs, i) <= old(backend.live)
      invariant backend.live == old(backend.live) - (Holding(vs, 0) - Holding(vs, i))
      invariant backend.gains == old(backend.gains) - (Holding(vs, 0) - Holding(vs, i))
      invariant SameRequests(old(backend.log), backend.log)
    {
      ghost var rest := Holding(vs, i + 1);
      HoldingStep(vs, i);
      match vs[i] {
        case Some(v) =>
          Closed(st, backend.live, Holding(vs, i), v);
          assert Holding(vs, i) - {v} == rest;
          backend.Stop(v);
        case None =>
      }
      i := i + 1;
    }
  }

  // ----- what the stores and the backend agree on -----

  /** Each stream was opened for its session's key and epoch. */
  ghost predicate OwnStreams(sessions: map<nat, Session>, streams: map<Handle, (nat, nat)>) {
    forall key :: key in sessions && sessions[key].Streaming? ==>
      sessions[key].voice in streams && streams[sessions[key].voice] == (key, sessions[key].epoch)
  }

  ghost predicate UnderMark(clips: map<nat, Group>, mark: Option<nat>) {
    forall id :: id in clips ==> mark.Some? && id <= mark.value
  }

  ghost predicate MirrorsStreams(starved: map<nat, bool>, sessions: map<nat, Session>) {
    forall key :: key in starved <==> key in sessions && sessions[key].Streaming?
  }

  // ----- the slots a frame has been through -----

  ghost function LayersOf(id: nat, n: nat): iset<Slot> {
    iset s: Slot | s.ClipSlot? && s.id == id && s.layer < n
  }

  ghost function ClipSlotsBut(todo: set<nat>): iset<Slot> {
    iset s: Slot | s.ClipSlot? && s.id !in todo
  }

  ghost function EmitterLayersOf(id: nat, n: nat): iset<Slot> {
    iset s: Slot | s.EmitterSlot? && s.id == id && s.layer < n
  }

  ghost function EmitterSlotsBut(todo: set<nat>): iset<Slot> {
    iset s: Slot | s.EmitterSlot? && s.id !in todo
  }

  ghost function SessionSlotsBut(todo: set<nat>): iset<Slot> {
    iset s: Slot | s.SessionSlot? && s.key !in todo
  }

  ghost function UiSlots(): iset<Slot> {
    iset s: Slot | s.UiSlot?
  }

  /** Every slot there is. */
  ghost function AllSlots(): (all: iset<Slot>)
    ensures forall s: Slot :: s in all
  {
    UiSlots() + ClipSlotsBut({}) + EmitterSlotsBut({}) + SessionSlotsBut({})
  }

  lemma TunedCover(
    laws: Laws, mix: Mix, base: map<Handle, real>, st: Stores, gains: map<Handle, real>, done: iset<Slot>,
      more: iset<Slot>)
    requires Tuned(laws, mix, base, st, gains, done)
    requires forall slot :: slot in more ==> slot in done || At(st, slot).None?
    ensures Tuned(laws, mix, base, st, gains, more)
  {
    hide GainAt, At;
  }

  lemma GroupCovered(
    laws: Laws, mix: Mix, base: map<Handle, real>, st: Stores, gains: map<Handle, real>, done: iset<Slot>,
    todo: set<nat>, id: nat, n: nat)
    requires Tuned(laws, mix, base, st, gains, done + ClipSlotsBut(todo) + LayersOf(id, n))
    requires id in st.clips && |st.clips[id].layers| == n
    ensures Tuned(laws, mix, base, st, gains, done + ClipSlotsBut(todo - {id}))
  {
    TunedCover(laws, mix, base, st, gains, done + ClipSlotsBut(todo) + LayersOf(id, n),
      done + ClipSlotsBut(todo - {id}));
  }

  lemma EmitterCovered(
    laws: Laws, mix: Mix, base: map<Handle, real>, st: Stores, gains: map<Handle, real>, done: iset<Slot>,
    todo: set<nat>, id: nat, n: nat)
    requires Tuned(laws, mix, base, st, gains, done + EmitterSlotsBut(todo) + EmitterLayersOf(id, n))
    requires id in st.emitters && |st.emitters[id].layers| == n
    ensures Tuned(laws, mix, base, st, gains, done + EmitterSlotsBut(todo - {id}))
  {
    TunedCover(laws, mix, base, st, gains,
      done + EmitterSlotsBut(todo) + EmitterLayersOf(id, n), done + EmitterSlotsBut(todo - {id}));
  }

  function Factor(laws: Laws, dt: real): real {
    laws.factor(dt)
  }

  /** How long a cue's longest layer lasts. */
  function MaxDuration(laws: Laws, cue: int): real {
    laws.maxDuration(cue)
  }

  predicate Expired(laws: Laws, g: Group) {
    g.age >= MaxDuration(laws, g.cue)
  }

  lemma ExpiredIsOver(laws: Laws, g: Group)
    ensures Expired(laws, g) <==> !(g.age < MaxDuration(laws, g.cue))
  {
  }

  /** How a submit ended: no backend, nothing to do, nothing to trace through, or a mixed frame. */
  datatype Outcome = Dead | Idle | Blind | Mixed

  /** The sources a frame ranks: aged, joined by its new occurrences, its table, each observed once. */
  function Sourced(laws: Laws, st: Stores, mark: Option<nat>, frame: Frame, w: Window): Stores {
    Observed(st.(clips := Realized(laws, Grown(st.clips, frame.dt), mark, frame.occurrences),
                 emitters := Reconciled(laws, GrownEmitters(st.emitters, frame.dt), frame.emitters)),
             w, frame.listener, Factor(laws, frame.dt))
  }

  function Ranked(laws: Laws, st: Stores, mark: Option<nat>, frame: Frame, w: Window,
      cands: seq<Ranking.Candidate>): Stores {
    Marked(Sourced(laws, st, mark, frame, w), Ranking.Winners(cands, laws.maxVoices))
  }

  lemma RankedAreLouder(laws: Laws, st: Stores, mark: Option<nat>, frame: Frame, w: Window,
      cands: seq<Ranking.Candidate>)
    requires Lists(laws, Sourced(laws, st, mark, frame, w), cands)
    ensures LouderAreHeard(laws, Ranked(laws, st, mark, frame, w, cands))
  {
    hide Sourced, Lists, Marked;
    WinnersAreLouder(laws, Sourced(laws, st, mark, frame, w), cands);
  }

  /** A frame drove the ranked sources to `driven`: each stepped, asking the backend once for each due layer
      and for no other. Then exactly the finished groups went. */
  ghost predicate Drove(
    laws: Laws, mix: Mix, ranked: Stores, driven: Stores, st: Stores, log: seq<Call>, later: seq<Call>)
  {
    && driven.clips.Keys == ranked.clips.Keys && driven.emitters.Keys == ranked.emitters.Keys
    && (forall id :: id in ranked.clips ==> GroupStep(ranked.clips[id], driven.clips[id]))
    && (forall id :: id in ranked.emitters ==> EmitterStep(ranked.emitters[id], driven.emitters[id]))
    && driven.sessions == ranked.sessions && driven.ui == ranked.ui
    && FrameAsked(laws, mix, ranked, driven, log, later)
    && st == driven.(clips := map id | id in driven.clips && !Expired(laws, driven.clips[id]) :: driven.clips[id])
  }

  /** What a frame makes of the ranked sources: each steps, and exactly the finished groups go. */
  ghost predicate FrameOf(laws: Laws, ranked: Stores, st: Stores) {
    && Stepped(ranked, st)
    && (forall id :: id in st.clips <==> id in ranked.clips && !Expired(laws, ranked.clips[id]))
    && st.emitters.Keys == ranked.emitters.Keys
    && st.ui == ranked.ui
  }

  /** What a packet comes to: beyond its session's epoch, the old stream is stopped and, with a device, one
      stream is asked for, the epoch known before standing if there is none; of the stream's own epoch, it is
      offered to the stream; else nothing. */
  ghost predicate PacketAnswered(
    t: Sessions.Table, now: Sessions.Table, log: seq<Call>, later: seq<Call>, pkt: Packet, grant: Option<Handle>,
    took: bool, up: bool)
  {
    var key := pkt.session;
    if key !in t || t[key].epoch < pkt.epoch then
      && later == log + (if key in t && t[key].Streaming? then [Stopped(t[key].voice)] else [])
                  + (if up then [RequestedStream(grant, key, pkt.epoch)] else [])
      && (!up ==> grant.None?)
      && now == (if grant.Some? then
                   t[key := Streaming(pkt.epoch, grant.value, false, None, Smooth(0.0, 0.0, false), false)]
                 else if key in t then t[key := Tombstone(t[key].epoch)] else t)
    else
      && grant.None? && now == t
      && later == (if t[key].Streaming? && t[key].epoch == pkt.epoch
                   then log + [Offered(t[key].voice, pkt, took)] else log)
  }

  /** The voice of the session's stream, if it has one. */
  function StreamOfKey(t: Sessions.Table, key: nat): set<Handle> {
    if key in t && t[key].Streaming? then {t[key].voice} else {}
  }

  /** The queues with the packet at the end of its stream's, if it was taken. */
  function FedTo(
    feeds: map<Handle, seq<Packet>>, t: Sessions.Table, pkt: Packet, took: bool): map<Handle, seq<Packet>>
  {
    if took && pkt.session in t && t[pkt.session].Streaming? && t[pkt.session].voice in feeds
    then feeds[t[pkt.session].voice := feeds[t[pkt.session].voice] + [pkt]]
    else feeds
  }

  class SoundSystem {
    const laws: Laws
    const backend: Backend
    var clips: map<nat, Group>
    var emitters: map<nat, EmitterVoice>
    var sessions: map<nat, Session>
    /** The last reported state of each stream's starvation flag. */
    var starved: map<nat, bool>
    var ui: seq<UiVoice>
    /** Occurrences at or below it were realized. */
    var mark: Option<nat>
    var mix: Mix
    var lastListener: Listener
    var uiCounter: nat
    /** Every occurrence ever realized. */
    ghost var realized: multiset<nat>

    ghost function St(): Stores
      reads this
    {
      Stores(clips, emitters, sessions, ui)
    }

    ghost predicate Valid()
      reads this, backend
    {
      && backend.Valid()
      && Owns(St(), backend.live, {})
      && OwnStreams(sessions, backend.streams)
      && MirrorsStreams(starved, sessions)
      && UnderMark(clips, mark)
    }

    constructor (laws: Laws, backend: Backend, listener: Listener)
      requires backend.Valid() && backend.live == {}
      ensures Valid() && this.laws == laws && this.backend == backend
      ensures St() == Stores(map[], map[], map[], []) && mark.None? && mix == Mix(1.0, 1.0, false)
      ensures realized == multiset{}
    {
      this.laws, this.backend, lastListener := laws, backend, listener;
      clips, emitters, sessions, starved, ui := map[], map[], map[], map[], [];
      mark, mix, uiCounter := None, Mix(1.0, 1.0, false), 0;
      realized := multiset{};
    }

    // ----- clip groups -----

    method StopGroup(id: nat)
      requires backend.Valid() && Owns(St(), backend.live, {}) && id in clips
      modifies this`clips, backend`live, backend`gains, backend`stopped, backend`log
      ensures backend.Valid() && Owns(St(), backend.live, {}) && clips == old(clips) - {id}
      ensures backend.live == old(backend.live) - Holding(ClipVoices(old(clips)[id]), 0)
      ensures backend.gains == old(backend.gains) - Holding(ClipVoices(old(clips)[id]), 0)
      ensures SameRequests(old(backend.log), backend.log)
    {
      hide StoppedOnce, Owns;
      var g := clips[id];
      ghost var was := St();
      clips := clips - {id};
      GroupTaken(was, id, St(), backend.live);
      StopVoices(backend, ClipVoices(g), St());
    }

    method StopEmitter(id: nat)
      requires backend.Valid() && Owns(St(), backend.live, {}) && id in emitters
      modifies this`emitters, backend`live, backend`gains, backend`stopped, backend`log
      ensures backend.Valid() && Owns(St(), backend.live, {}) && emitters == old(emitters) - {id}
      ensures backend.live == old(backend.live) - Holding(VoicesOfEmitter(old(emitters)[id]), 0)
      ensures backend.gains == old(backend.gains) - Holding(VoicesOfEmitter(old(emitters)[id]), 0)
      ensures SameRequests(old(backend.log), backend.log)
    {
      hide StoppedOnce, Owns;
      var e := emitters[id];
      ghost var was := St();
      emitters := emitters - {id};
      EmitterTaken(was, id, St(), backend.live);
      StopVoices(backend, VoicesOfEmitter(e), St());
    }

    /** One layer of a group, in the frame its group was ranked. */
    method ApplyClipLayer(id: nat, i: nat, ghost base: map<Handle, real>, ghost done: iset<Slot>)
      requires backend.Valid() && Owns(St(), backend.live, {}) && id in clips && i < |clips[id].layers|
      requires Tuned(laws, mix, base, St(), backend.gains, done)
      modifies this`clips, backend
      ensures backend.Valid() && Owns(St(), backend.live, {})
      ensures id in clips && clips == old(clips)[id := clips[id]]
      ensures |clips[id].layers| == |old(clips)[id].layers|
      ensures clips[id] == old(clips)[id].(layers := old(clips)[id].layers[i := clips[id].layers[i]])
      ensures LayerStep(old(clips)[id], old(clips)[id].layers[i], clips[id].layers[i])
      ensures Tuned(laws, mix, base, St(), backend.gains, done + iset{ClipSlot(id, i)})
      ensures backend.log == old(backend.log)
        + ClipCalls(laws, mix, id, i, old(clips)[id], old(clips)[id].layers[i], clips[id].layers[i])
      ensures backend.streams == old(backend.streams) && backend.feeds == old(backend.feeds)
    {
      hide StoppedOnce, Owns, Tuned, ClipGain, RequestsFor;
      var g := clips[id];
      ghost var was, live, gains := St(), backend.live, backend.gains;
      ghost var slot := ClipSlot(id, i);
      match g.layers[i] {
        case Pending(draw) =>
          if g.won && g.age >= draw.delay {
            var level := ClipGain(laws, mix, g, draw.gain);
            var v := backend.PlayClip(draw.clip, level, false, ClipOf(id, i));
            var layer := if v.Some? then Sounding(v.value, draw.gain) else Done;
            clips := clips[id := g.(layers := g.layers[i := layer])];
            assert St() == WithLayer(was, id, i, layer);
            LayerOpened(was, id, i, layer, v, live, backend.live, base, gains, backend.gains, done);
          } else {
            assert clips[id] == g.(layers := g.layers[i := g.layers[i]]);
            TunedMore(was, done, slot, gains, base);
          }
        case Sounding(v, gain) =>
          assert At(was, slot) == Some(v);
          HeldIsLive(was, live, slot);
          if g.won {
            var level := ClipGain(laws, mix, g, gain);
            backend.Update(v, level);
            assert clips[id] == g.(layers := g.layers[i := g.layers[i]]);
            TunedStep(laws, mix, base, was, St(), live, gains, backend.gains, done, slot, Some(v));
          } else {
            clips := clips[id := g.(layers := g.layers[i := Done])];
            assert St() == WithLayer(was, id, i, Done);
            backend.Stop(v);
            LayerStopped(was, id, i, v, live, base, gains, done);
          }
        case Done =>
          assert clips[id] == g.(layers := g.layers[i := g.layers[i]]);
          TunedMore(was, done, slot, gains, base);
      }
    }

    /** A due layer that got a voice sounds at its level; one that did not is done. */
    lemma LayerOpened(
      st: Stores, id: nat, i: nat, l: LayerState, v: Option<Handle>, live: set<Handle>, now: set<Handle>,
      base: map<Handle, real>, was: map<Handle, real>, gains: map<Handle, real>, done: iset<Slot>)
      requires Owns(st, live, {}) && Tuned(laws, mix, base, st, was, done)
      requires id in st.clips && i < |st.clips[id].layers| && st.clips[id].layers[i].Pending? && LayerVoice(l) == v
      requires v.Some? ==> v.value !in live
      requires now == live + (if v.Some? then {v.value} else {})
      requires gains == if v.Some? then was[v.value := ClipGain(laws, mix, st.clips[id], l.gain)] else was
      ensures Owns(WithLayer(st, id, i, l), now, {})
      ensures Tuned(laws, mix, base, WithLayer(st, id, i, l), gains, done + iset{ClipSlot(id, i)})
    {
      hide Owns, Tuned, ClipGain, GainAt;
      var to, slot := WithLayer(st, id, i, l), ClipSlot(id, i);
      WithLayerKeepsGains(laws, mix, base, st, id, i, l) by { OwnsDistinctUi(st, live); }
      if v.Some? {
        Opened(st, live, {}, v.value);
        PutIn(st, to, slot, v.value, now, {v.value});
        assert {v.value} - {v.value} == {};
      } else {
        assert now == live;
        Keep(st, to, live, {});
      }
      TunedStep(laws, mix, base, st, to, live, was, gains, done, slot, v);
    }

    /** A sounding layer that lost its voice is done. */
    lemma LayerStopped(
      st: Stores, id: nat, i: nat, v: Handle, live: set<Handle>,
      base: map<Handle, real>, was: map<Handle, real>, done: iset<Slot>)
      requires Owns(st, live, {}) && Tuned(laws, mix, base, st, was, done)
      requires At(st, ClipSlot(id, i)) == Some(v)
      ensures Owns(WithLayer(st, id, i, Done), live - {v}, {})
      ensures Tuned(laws, mix, base, WithLayer(st, id, i, Done), was - {v}, done + iset{ClipSlot(id, i)})
    {
      hide Owns, Tuned, ClipGain, GainAt;
      var to, slot := WithLayer(st, id, i, Done), ClipSlot(id, i);
      WithLayerKeepsGains(laws, mix, base, st, id, i, Done) by { OwnsDistinctUi(st, live); }
      TakeOut(st, to, slot, v, live, {});
      assert {} + {v} == {v};
      Closed(to, live, {v}, v);
      assert {v} - {v} == {};
      TunedStep(laws, mix, base, st, to, live, was, was - {v}, done, slot, None);
    }

    lemma OwnsDistinctUi(st: Stores, live: set<Handle>)
      requires Owns(st, live, {})
      ensures DistinctUi(st.ui)
    {
    }

    lemma HeldIsLive(st: Stores, live: set<Handle>, slot: Slot)
      requires Owns(st, live, {}) && At(st, slot).Some?
      ensures At(st, slot).value in live && DistinctUi(st.ui)
    {
    }

    lemma TunedMore(st: Stores, done: iset<Slot>, slot: Slot, gains: map<Handle, real>, base: map<Handle, real>)
      requires Tuned(laws, mix, base, st, gains, done) && At(st, slot).None?
      ensures Tuned(laws, mix, base, st, gains, done + iset{slot})
    {
    }

    /** Every layer of a group. */
    method ApplyClipGroup(id: nat, ghost base: map<Handle, real>, ghost done: iset<Slot>)
      requires backend.Valid() && Owns(St(), backend.live, {}) && id in clips
      requires Tuned(laws, mix, base, St(), backend.gains, done)
      modifies this`clips, backend
      ensures backend.Valid() && Owns(St(), backend.live, {})
      ensures id in clips && clips == old(clips)[id := clips[id]] && GroupStep(old(clips)[id], clips[id])
      ensures |clips[id].layers| == |old(clips)[id].layers|
      ensures Tuned(laws, mix, base, St(), backend.gains, done + LayersOf(id, |old(clips)[id].layers|))
      ensures GroupAsked(laws, mix, id, old(clips)[id], clips[id], old(backend.log), backend.log, |clips[id].layers|)
      ensures backend.streams == old(backend.streams) && backend.feeds == old(backend.feeds)
    {
      hide StoppedOnce, Owns, Tuned, ClipGain;
      var i := 0;
      var n := |clips[id].layers|;
      ghost var g := clips[id];
      ghost var log := backend.log;
      assert done + LayersOf(id, 0) == done && GroupAsked(laws, mix, id, g, g, log, log, 0);
      assert SteppedTo(g, g, 0);
      hide GroupAsked, AskedAt, ClipAsk, ClipCalls, RequestsFor, SteppedTo, LayerStep, GroupStep, LayersOf;
      while i < n
        invariant 0 <= i <= n && id in clips && n == |g.layers|
        invariant backend.Valid() && Owns(St(), backend.live, {})
        invariant clips == old(clips)[id := clips[id]] && |clips[id].layers| == n
        invariant SteppedTo(g, clips[id], i)
        invariant Tuned(laws, mix, base, St(), backend.gains, done + LayersOf(id, i))
        invariant GroupAsked(laws, mix, id, g, clips[id], log, backend.log, i)
        invariant backend.streams == old(backend.streams) && backend.feeds == old(backend.feeds)
      {
        ghost var now, between := clips[id], backend.log;
        ApplyClipLayer(id, i, base, done + LayersOf(id, i));
        LayersMore(done, id, i);
        SteppedMore(g, now, clips[id], i);
        ClipCallsAsk(laws, mix, id, i, now, now.layers[i], clips[id].layers[i], between);
        GroupAskedMore(laws, mix, id, g, now, clips[id], log, between, backend.log, i);
        i := i + 1;
      }
      SteppedWhole(g, clips[id]);
    }

    lemma LayersMore(done: iset<Slot>, id: nat, i: nat)
      ensures done + LayersOf(id, i) + iset{ClipSlot(id, i)} == done + LayersOf(id, i + 1)
      ensures done + EmitterLayersOf(id, i) + iset{EmitterSlot(id, i)} == done + EmitterLayersOf(id, i + 1)
    {
    }

    /** The first `n` layers have stepped, the others are as they were. */
    ghost predicate SteppedTo(g: Group, now: Group, n: nat) {
      && now == g.(layers := now.layers) && n <= |g.layers| == |now.layers|
      && (forall j :: 0 <= j < n ==> LayerStep(g, g.layers[j], now.layers[j]))
      && (forall j :: n <= j < |g.layers| ==> now.layers[j] == g.layers[j])
    }

    lemma SteppedMore(g: Group, now: Group, later: Group, i: nat)
      requires SteppedTo(g, now, i) && i < |g.layers| && |later.layers| == |now.layers|
      requires later == now.(layers := now.layers[i := later.layers[i]])
      requires LayerStep(now, now.layers[i], later.layers[i])
      ensures |now.layers| == |g.layers| && now == g.(layers := now.layers) && now.layers[i] == g.layers[i]
      ensures SteppedTo(g, later, i + 1)
    {
    }

    lemma SteppedWhole(g: Group, now: Group)
      requires SteppedTo(g, now, |g.layers|)
      ensures GroupStep(g, now)
    {
    }

    lemma ClipsUntouched(base: map<Handle, real>, done: iset<Slot>)
      requires Tuned(laws, mix, base, St(), backend.gains, done)
      ensures Tuned(laws, mix, base, St(), backend.gains, done + ClipSlotsBut(clips.Keys))
    {
      TunedCover(laws, mix, base, St(), backend.gains, done, done + ClipSlotsBut(clips.Keys));
    }

    method ApplyClipGroups(ghost base: map<Handle, real>, ghost done: iset<Slot>)
      requires backend.Valid() && Owns(St(), backend.live, {})
      requires Tuned(laws, mix, base, St(), backend.gains, done)
      modifies this`clips, backend
      ensures backend.Valid() && Owns(St(), backend.live, {})
      ensures clips.Keys == old(clips).Keys
      ensures forall id :: id in clips ==> GroupStep(old(clips)[id], clips[id])
      ensures Tuned(laws, mix, base, St(), backend.gains, done + ClipSlotsBut({}))
      ensures ClipsAsked(laws, mix, old(clips), clips, old(backend.log), backend.log, {})
      ensures backend.streams == old(backend.streams) && backend.feeds == old(backend.feeds)
    {
      hide StoppedOnce, Owns, Tuned, ClipGain, GroupStep, At, ClipSlotsBut, LayersOf, ClipsAsked, GroupAsked;
      var todo := clips.Keys;
      ClipsUntouched(base, done);
      NoneAskedYet(laws, mix, clips, emitters, backend.log);
      while todo != {}
        invariant todo <= clips.Keys == old(clips).Keys
        invariant backend.Valid() && Owns(St(), backend.live, {})
        invariant forall id :: id in todo ==> clips[id] == old(clips)[id]
        invariant forall id :: id in clips && id !in todo ==> GroupStep(old(clips)[id], clips[id])
        invariant Tuned(laws, mix, base, St(), backend.gains, done + ClipSlotsBut(todo))
        invariant ClipsAsked(laws, mix, old(clips), clips, old(backend.log), backend.log, todo)
        invariant backend.streams == old(backend.streams) && backend.feeds == old(backend.feeds)
        decreases |todo|
      {
        var id :| id in todo;
        ghost var n, mid, between := |clips[id].layers|, clips, backend.log;
        ApplyClipGroup(id, base, done + ClipSlotsBut(todo));
        ClipsAskedMore(laws, mix, old(clips), mid, clips, old(backend.log), between, backend.log, todo, id);
        GroupCovered(laws, mix, base, St(), backend.gains, done, todo, id, n);
        todo := todo - {id};
      }
    }

    // ----- emitters -----

    method ApplyEmitterLayer(id: nat, i: nat, ghost base: map<Handle, real>, ghost done: iset<Slot>)
      requires backend.Valid() && Owns(St(), backend.live, {}) && id in emitters && i < |emitters[id].layers|
      requires Tuned(laws, mix, base, St(), backend.gains, done)
      modifies this`emitters, backend
      ensures backend.Valid() && Owns(St(), backend.live, {})
      ensures id in emitters && emitters == old(emitters)[id := emitters[id]]
      ensures |emitters[id].layers| == |old(emitters)[id].layers|
      ensures emitters[id] == old(emitters)[id].(layers := old(emitters)[id].layers[i := emitters[id].layers[i]])
      ensures EmitterLayerStep(old(emitters)[id], old(emitters)[id].layers[i], emitters[id].layers[i])
      ensures Tuned(laws, mix, base, St(), backend.gains, done + iset{EmitterSlot(id, i)})
      ensures backend.streams == old(backend.streams) && backend.feeds == old(backend.feeds)
      ensures backend.log == old(backend.log)
        + EmitterCalls(laws, mix, id, i, old(emitters)[id], old(emitters)[id].layers[i], emitters[id].layers[i])
    {
      hide StoppedOnce, Owns, Tuned, EmitterGain, RequestsFor;
      var e := emitters[id];
      var l := e.layers[i];
      ghost var was, live, gains := St(), backend.live, backend.gains;
      ghost var slot := EmitterSlot(id, i);
      var level := EmitterGain(laws, mix, e, l.draw.gain);
      assert e.layers[i := l] == e.layers;
      match l.voice {
        case Some(v) =>
          HeldIsLive(was, live, slot);
          backend.Update(v, level);
          TunedStep(laws, mix, base, was, St(), live, gains, backend.gains, done, slot, Some(v));
        case None =>
          if e.won && e.age >= l.draw.delay {
            var v := backend.PlayClip(l.draw.clip, level, true, EmitterOf(id, i));
            emitters := emitters[id := e.(layers := e.layers[i := l.(voice := v)])];
            WithVoiceKeepsGains(laws, mix, base, was, id, i, v) by { OwnsDistinctUi(was, live); }
            assert St() == WithVoice(was, id, i, v);
            if v.Some? {
              Opened(was, live, {}, v.value);
              PutIn(was, St(), slot, v.value, backend.live, {v.value});
              assert {v.value} - {v.value} == {};
            } else {
              Keep(was, St(), live, {});
            }
            TunedStep(laws, mix, base, was, St(), live, gains, backend.gains, done, slot, v);
          } else {
            TunedMore(was, done, slot, gains, base);
          }
      }
    }

    method ApplyEmitter(id: nat, ghost base: map<Handle, real>, ghost done: iset<Slot>)
      requires backend.Valid() && Owns(St(), backend.live, {}) && id in emitters
      requires Tuned(laws, mix, base, St(), backend.gains, done)
      modifies this`emitters, backend
      ensures backend.Valid() && Owns(St(), backend.live, {})
      ensures id in emitters && emitters == old(emitters)[id := emitters[id]]
        && EmitterStep(old(emitters)[id], emitters[id])
      ensures |emitters[id].layers| == |old(emitters)[id].layers|
      ensures Tuned(laws, mix, base, St(), backend.gains, done + EmitterLayersOf(id, |old(emitters)[id].layers|))
      ensures EmitterAsked(laws, mix, id, old(emitters)[id], emitters[id], old(backend.log), backend.log,
                           |emitters[id].layers|)
      ensures backend.streams == old(backend.streams) && backend.feeds == old(backend.feeds)
    {
      hide StoppedOnce, Owns, Tuned;
      var i := 0;
      var n := |emitters[id].layers|;
      ghost var e := emitters[id];
      ghost var log := backend.log;
      assert done + EmitterLayersOf(id, 0) == done && EmitterAsked(laws, mix, id, e, e, log, log, 0);
      hide EmitterAsked, AskedAt, LoopAsk, EmitterCalls, RequestsFor, EmitterLayersOf;
      while i < n
        invariant 0 <= i <= n && id in emitters && n == |e.layers|
        invariant backend.Valid() && Owns(St(), backend.live, {})
        invariant emitters == old(emitters)[id := emitters[id]] && emitters[id] == e.(layers := emitters[id].layers)
        invariant |emitters[id].layers| == n
        invariant forall j :: 0 <= j < i ==> EmitterLayerStep(e, e.layers[j], emitters[id].layers[j])
        invariant forall j :: i <= j < n ==> emitters[id].layers[j] == e.layers[j]
        invariant Tuned(laws, mix, base, St(), backend.gains, done + EmitterLayersOf(id, i))
        invariant EmitterAsked(laws, mix, id, e, emitters[id], log, backend.log, i)
        invariant backend.streams == old(backend.streams) && backend.feeds == old(backend.feeds)
      {
        ghost var now, between := emitters[id], backend.log;
        ApplyEmitterLayer(id, i, base, done + EmitterLayersOf(id, i));
        LayersMore(done, id, i);
        EmitterCallsAsk(laws, mix, id, i, now, now.layers[i], emitters[id].layers[i], between);
        EmitterAskedMore(laws, mix, id, e, now, emitters[id], log, between, backend.log, i);
        i := i + 1;
      }
    }

    lemma EmittersUntouched(base: map<Handle, real>, done: iset<Slot>)
      requires Tuned(laws, mix, base, St(), backend.gains, done)
      ensures Tuned(laws, mix, base, St(), backend.gains, done + EmitterSlotsBut(emitters.Keys))
    {
      TunedCover(laws, mix, base, St(), backend.gains, done, done + EmitterSlotsBut(emitters.Keys));
    }

    method ApplyEmitters(ghost base: map<Handle, real>, ghost done: iset<Slot>)
      requires backend.Valid() && Owns(St(), backend.live, {})
      requires Tuned(laws, mix, base, St(), backend.gains, done)
      modifies this`emitters, backend
      ensures backend.Valid() && Owns(St(), backend.live, {})
      ensures emitters.Keys == old(emitters).Keys
      ensures forall id :: id in emitters ==> EmitterStep(old(emitters)[id], emitters[id])
      ensures Tuned(laws, mix, base, St(), backend.gains, done + EmitterSlotsBut({}))
      ensures EmittersAsked(laws, mix, old(emitters), emitters, old(backend.log), backend.log, {})
      ensures backend.streams == old(backend.streams) && backend.feeds == old(backend.feeds)
    {
      hide StoppedOnce, Owns, Tuned, EmitterStep, At, EmitterSlotsBut, EmitterLayersOf, EmittersAsked, EmitterAsked;
      var todo := emitters.Keys;
      EmittersUntouched(base, done);
      NoneAskedYet(laws, mix, clips, emitters, backend.log);
      while todo != {}
        invariant todo <= emitters.Keys == old(emitters).Keys
        invariant backend.Valid() && Owns(St(), backend.live, {})
        invariant forall id :: id in todo ==> emitters[id] == old(emitters)[id]
        invariant forall id :: id in emitters && id !in todo ==> EmitterStep(old(emitters)[id], emitters[id])
        invariant Tuned(laws, mix, base, St(), backend.gains, done + EmitterSlotsBut(todo))
        invariant EmittersAsked(laws, mix, old(emitters), emitters, old(backend.log), backend.log, todo)
        invariant backend.streams == old(backend.streams) && backend.feeds == old(backend.feeds)
        decreases |todo|
      {
        var id :| id in todo;
        ghost var n, mid, between := |emitters[id].layers|, emitters, backend.log;
        ApplyEmitter(id, base, done + EmitterSlotsBut(todo));
        EmittersAskedMore(laws, mix, old(emitters), mid, emitters, old(backend.log), between, backend.log, todo, id);
        EmitterCovered(laws, mix, base, St(), backend.gains, done, todo, id, n);
        todo := todo - {id};
      }
    }

    // ----- sessions -----

    lemma SessionsUntouched(base: map<Handle, real>, done: iset<Slot>)
      requires Tuned(laws, mix, base, St(), backend.gains, done)
      ensures Tuned(laws, mix, base, St(), backend.gains, done + SessionSlotsBut(sessions.Keys))
    {
      TunedCover(laws, mix, base, St(), backend.gains, done, done + SessionSlotsBut(sessions.Keys));
    }

    lemma SessionTuned(base: map<Handle, real>, done: iset<Slot>, was: map<Handle, real>, key: nat)
      requires Owns(St(), backend.live, {}) && key in sessions && backend.Valid()
      requires Tuned(laws, mix, base, St(), was, done)
      requires backend.gains == if sessions[key].Streaming?
                                then was[sessions[key].voice := SessionGain(laws, mix, sessions[key])] else was
      ensures Tuned(laws, mix, base, St(), backend.gains, done + iset{SessionSlot(key)})
    {
      hide SessionGain;
      if sessions[key].Streaming? {
        TunedStep(laws, mix, base, St(), St(), backend.live, was, backend.gains, done, SessionSlot(key),
          Some(sessions[key].voice));
      }
    }

    method ApplySessions(ghost base: map<Handle, real>, ghost done: iset<Slot>)
      requires backend.Valid() && Owns(St(), backend.live, {})
      requires Tuned(laws, mix, base, St(), backend.gains, done)
      modifies backend`gains, backend`log
      ensures backend.Valid() && Owns(St(), backend.live, {})
      ensures Tuned(laws, mix, base, St(), backend.gains, done + SessionSlotsBut({}))
      ensures SameRequests(old(backend.log), backend.log)
    {
      hide StoppedOnce, Owns, Tuned, SessionGain, RequestsFor;
      var todo := sessions.Keys;
      SessionsUntouched(base, done);
      while todo != {}
        invariant todo <= sessions.Keys
        invariant backend.Valid() && Owns(St(), backend.live, {})
        invariant Tuned(laws, mix, base, St(), backend.gains, done + SessionSlotsBut(todo))
        invariant SameRequests(old(backend.log), backend.log)
        decreases |todo|
      {
        var key :| key in todo;
        ghost var was := backend.gains;
        match sessions[key] {
          case Streaming(_, v, _, _, _, _) =>
            assert At(St(), SessionSlot(key)) == Some(v);
            HeldIsLive(St(), backend.live, SessionSlot(key));
            backend.Update(v, SessionGain(laws, mix, sessions[key]));
          case Tombstone(_) =>
        }
        SessionTuned(base, done + SessionSlotsBut(todo), was, key);
        assert done + SessionSlotsBut(todo) + iset{SessionSlot(key)} == done + SessionSlotsBut(todo - {key});
        todo := todo - {key};
      }
    }

    // ----- a frame's sources -----

    lemma GrownKeeps(dt: real, to: Stores, live: set<Handle>)
      requires Owns(St(), live, {})
      requires to == St().(clips := Grown(clips, dt), emitters := GrownEmitters(emitters, dt))
      ensures Owns(to, live, {})
    {
      Keep(St(), to, live, {});
    }

    /** Drop what was realized before, age what plays, add the new occurrences. */
    method RealizeOccurrences(dt: real, occs: seq<Occurrence>)
      requires Owns(St(), backend.live, {}) && UnderMark(clips, mark) && Increasing(occs)
      modifies this`clips, this`emitters, this`mark, this`realized
      ensures Owns(St(), backend.live, {}) && UnderMark(clips, mark)
      ensures clips == Realized(laws, Grown(old(clips), dt), old(mark), occs)
      ensures emitters == GrownEmitters(old(emitters), dt)
      ensures mark == Highest(old(mark), occs)
      ensures realized == old(realized) + FreshIds(old(mark), occs)
    {
      hide StoppedOnce, Owns, Newborn, Realized, Highest, FreshIds, UpTo, UnderMark;
      ghost var was := St();
      GrownKeeps(dt, was.(clips := Grown(clips, dt), emitters := GrownEmitters(emitters, dt)), backend.live);
      var maxId := mark;
      NoneYet(laws, Grown(clips, dt), mark, occs);
      UpToStart(clips, mark, dt, occs);
      clips := Grown(clips, dt);
      emitters := GrownEmitters(emitters, dt);
      ghost var aged := clips;
      var i := 0;
      while i < |occs|
        invariant 0 <= i <= |occs|
        invariant Owns(St(), backend.live, {})
        invariant mark == old(mark) && emitters == GrownEmitters(old(emitters), dt)
        invariant clips == Realized(laws, aged, mark, occs[..i])
        invariant maxId == Highest(mark, occs[..i]) && (mark.Some? ==> maxId.Some? && maxId.value >= mark.value)
        invariant UnderMark(clips, maxId)
        invariant UpTo(clips, mark, occs, i)
        invariant realized == old(realized) + FreshIds(mark, occs[..i])
      {
        var o := occs[i];
        OneMore(laws, aged, mark, occs, i);
        StaysUpTo(laws, clips, mark, maxId, occs, i);
        if mark.Some? && o.id <= mark.value {
        } else {
          maxId := if maxId.Some? && maxId.value >= o.id then maxId else Some(o.id);
          Insert(o);
        }
        i := i + 1;
      }
      assert occs[..i] == occs;
      mark := maxId;
    }

    /** Every id is at or below the mark, or at or below the last occurrence seen. */
    ghost predicate UpTo(clips: map<nat, Group>, mark: Option<nat>, occs: seq<Occurrence>, i: nat)
      requires i <= |occs|
    {
      forall id :: id in clips ==> (mark.Some? && id <= mark.value) || (i > 0 && id <= occs[i - 1].id)
    }

    lemma UpToStart(clips: map<nat, Group>, mark: Option<nat>, dt: real, occs: seq<Occurrence>)
      requires UnderMark(clips, mark)
      ensures UpTo(Grown(clips, dt), mark, occs, 0) && UnderMark(Grown(clips, dt), mark)
    {
    }

    lemma StaysUpTo(
      laws: Laws, clips: map<nat, Group>, mark: Option<nat>, seen: Option<nat>, occs: seq<Occurrence>, i: nat)
      requires i < |occs| && Increasing(occs) && UpTo(clips, mark, occs, i) && UnderMark(clips, seen)
      ensures UpTo(clips, mark, occs, i + 1) && (Fresh(mark, occs[i].id) ==> occs[i].id !in clips)
      ensures UpTo(clips[occs[i].id := Newborn(laws, occs[i])], mark, occs, i + 1)
      ensures UnderMark(clips[occs[i].id := Newborn(laws, occs[i])], Raised(seen, occs[i].id))
    {
      hide Newborn;
    }

    /** A new group, all of its layers pending. */
    method Insert(o: Occurrence)
      requires Owns(St(), backend.live, {}) && o.id !in clips
      modifies this`clips, this`realized
      ensures Owns(St(), backend.live, {})
      ensures clips == old(clips)[o.id := Newborn(laws, o)] && realized == old(realized) + multiset{o.id}
    {
      hide Owns, Newborn;
      ghost var before := St();
      clips := clips[o.id := Newborn(laws, o)];
      realized := realized + multiset{o.id};
      NewbornIsSilent(laws, o);
      AddedKeeps(before, o.id, clips[o.id], St(), backend.live);
    }

    lemma NoneYet(laws: Laws, aged: map<nat, Group>, mark: Option<nat>, occs: seq<Occurrence>)
      ensures Realized(laws, aged, mark, occs[..0]) == aged && Highest(mark, occs[..0]) == mark
      ensures FreshIds(mark, occs[..0]) == multiset{}
    {
    }

    lemma NewbornIsSilent(laws: Laws, o: Occurrence)
      ensures Silent(Newborn(laws, o))
    {
    }

    lemma AddedKeeps(st: Stores, id: nat, g: Group, to: Stores, live: set<Handle>)
      requires Owns(st, live, {}) && id !in st.clips && Silent(g) && to == st.(clips := st.clips[id := g])
      ensures Owns(to, live, {})
    {
      SilentGroupAdded(st, id, g, to);
      Keep(st, to, live, {});
    }

    lemma PlacedKeeps(st: Stores, id: nat, at: Position, gain: real, to: Stores, live: set<Handle>)
      requires Owns(st, live, {}) && id in st.emitters
      requires to == st.(emitters := st.emitters[id := st.emitters[id].(at := at, gain := gain)])
      ensures Owns(to, live, {})
    {
      Keep(st, to, live, {});
    }

    lemma EmitterAddedKeeps(st: Stores, id: nat, e: EmitterVoice, to: Stores, live: set<Handle>)
      requires Owns(st, live, {}) && id !in st.emitters && Mute(e) && to == st.(emitters := st.emitters[id := e])
      ensures Owns(to, live, {})
    {
      MuteEmitterAdded(st, id, e, to);
      Keep(st, to, live, {});
    }

    /** Release the emitters the table no longer lists, place the rest, add the new ones. */
    method ReconcileEmitters(table: seq<Emitter>)
      requires backend.Valid() && Owns(St(), backend.live, {})
      modifies this`emitters, backend`live, backend`gains, backend`stopped, backend`log
      ensures backend.Valid() && Owns(St(), backend.live, {})
      ensures emitters == Reconciled(laws, old(emitters), table)
      ensures forall h :: h in backend.live ==> h in old(backend.live) && backend.gains[h] == old(backend.gains)[h]
      ensures SameRequests(old(backend.log), backend.log)
    {
      hide StoppedOnce, Owns, NewEmitter;
      var gone := PlaceTabled(table);
      PlacedStay(table, old(emitters), emitters);
      ReleaseGone(gone);
      AddTabled(table, old(emitters));
    }

    /** The emitters seen so far that the table no longer lists with their cue. */
    ghost function Gone(table: seq<Emitter>, was: map<nat, EmitterVoice>, todo: set<nat>): set<nat> {
      set id | id in was && id !in todo && !Tabled(table, id, was[id].cue)
    }

    lemma GoneMore(table: seq<Emitter>, was: map<nat, EmitterVoice>, todo: set<nat>, id: nat)
      requires id in todo && todo <= was.Keys
      ensures Gone(table, was, todo - {id})
           == Gone(table, was, todo) + if Tabled(table, id, was[id].cue) then {} else {id}
    {
    }

    /** A tabled emitter takes its entry's place and gain, any other is left for now. */
    ghost predicate PlacedOrLeft(table: seq<Emitter>, was: EmitterVoice, now: EmitterVoice, id: nat) {
      now == if Tabled(table, id, was.cue)
             then was.(at := FindEmitter(table, id).value.at, gain := FindEmitter(table, id).value.gain)
             else was
    }

    method PlaceTabled(table: seq<Emitter>) returns (gone: set<nat>)
      requires Owns(St(), backend.live, {})
      modifies this`emitters
      ensures Owns(St(), backend.live, {}) && emitters.Keys == old(emitters).Keys
      ensures gone == Gone(table, old(emitters), {})
      ensures forall id :: id in emitters ==> PlacedOrLeft(table, old(emitters)[id], emitters[id], id)
    {
      hide StoppedOnce, Owns, NewEmitter, Gone, PlacedOrLeft;
      gone := {};
      var todo := emitters.Keys;
      assert Gone(table, emitters, todo) == {} by { NoneGone(table, emitters); }
      while todo != {}
        invariant todo <= emitters.Keys == old(emitters).Keys
        invariant Owns(St(), backend.live, {})
        invariant gone == Gone(table, old(emitters), todo)
        invariant forall id :: id in todo ==> emitters[id] == old(emitters)[id]
        invariant forall id :: id in emitters && id !in todo ==>
          PlacedOrLeft(table, old(emitters)[id], emitters[id], id)
        decreases |todo|
      {
        var id :| id in todo;
        GoneMore(table, old(emitters), todo, id);
        var kept := PlaceOne(table, id);
        gone := if kept then gone else gone + {id};
        todo := todo - {id};
      }
    }

    method PlaceOne(table: seq<Emitter>, id: nat) returns (kept: bool)
      requires Owns(St(), backend.live, {}) && id in emitters
      modifies this`emitters
      ensures Owns(St(), backend.live, {}) && kept == Tabled(table, id, old(emitters)[id].cue)
      ensures id in emitters && emitters == old(emitters)[id := emitters[id]]
      ensures PlacedOrLeft(table, old(emitters)[id], emitters[id], id)
    {
      hide StoppedOnce, Owns;
      match FindEmitter(table, id) {
        case Some(e) =>
          kept := e.cue == emitters[id].cue;
          if kept {
            ghost var was := St();
            emitters := emitters[id := emitters[id].(at := e.at, gain := e.gain)];
            PlacedKeeps(was, id, e.at, e.gain, St(), backend.live);
          }
        case None =>
          kept := false;
      }
    }

    lemma NoneGone(table: seq<Emitter>, was: map<nat, EmitterVoice>)
      ensures Gone(table, was, was.Keys) == {}
    {
    }

    /** What is left once the untabled are gone: every entry as the table places it. */
    lemma PlacedStay(table: seq<Emitter>, was: map<nat, EmitterVoice>, now: map<nat, EmitterVoice>)
      requires now.Keys == was.Keys && forall id :: id in now ==> PlacedOrLeft(table, was[id], now[id], id)
      ensures Gone(table, was, {}) <= was.Keys
      ensures var left := now - Gone(table, was, {});
        && (forall id :: id in left <==> id in was && Tabled(table, id, was[id].cue))
        && (forall id :: id in left ==>
              FindEmitter(table, id).Some? && left[id] == Placed(laws, was, FindEmitter(table, id).value))
    {
      hide NewEmitter;
      forall id | id in now && Tabled(table, id, was[id].cue)
        ensures now[id] == Placed(laws, was, FindEmitter(table, id).value)
      {
        FindsTabled(table, id);
        assert PlacedOrLeft(table, was[id], now[id], id);
      }
    }

    method ReleaseGone(gone: set<nat>)
      requires backend.Valid() && Owns(St(), backend.live, {}) && gone <= emitters.Keys
      modifies this`emitters, backend`live, backend`gains, backend`stopped, backend`log
      ensures backend.Valid() && Owns(St(), backend.live, {}) && emitters == old(emitters) - gone
      ensures forall h :: h in backend.live ==> h in old(backend.live) && backend.gains[h] == old(backend.gains)[h]
      ensures SameRequests(old(backend.log), backend.log)
    {
      hide StoppedOnce, Owns, RequestsFor;
      var todo := gone;
      while todo != {}
        invariant todo <= gone && emitters == old(emitters) - (gone - todo)
        invariant backend.Valid() && Owns(St(), backend.live, {})
        invariant forall h :: h in backend.live ==> h in old(backend.live) && backend.gains[h] == old(backend.gains)[h]
        invariant SameRequests(old(backend.log), backend.log)
        decreases |todo|
      {
        var id :| id in todo;
        StopEmitter(id);
        todo := todo - {id};
      }
    }

    method AddTabled(table: seq<Emitter>, ghost was: map<nat, EmitterVoice>)
      requires Owns(St(), backend.live, {})
      requires forall id :: id in emitters <==> id in was && Tabled(table, id, was[id].cue)
      requires forall id :: id in emitters ==>
        FindEmitter(table, id).Some? && emitters[id] == Placed(laws, was, FindEmitter(table, id).value)
      modifies this`emitters
      ensures Owns(St(), backend.live, {}) && emitters == Reconciled(laws, was, table)
    {
      hide StoppedOnce, Owns, NewEmitter;
      var i := 0;
      while i < |table|
        invariant 0 <= i <= |table|
        invariant Owns(St(), backend.live, {})
        invariant old(emitters).Keys <= emitters.Keys
        invariant forall id :: id in emitters ==>
          FindEmitter(table, id).Some? && emitters[id] == Placed(laws, was, FindEmitter(table, id).value)
        invariant forall j :: 0 <= j < i ==> table[j].id in emitters
      {
        var e := table[i];
        if e.id !in emitters {
          FindsTabled(table, e.id);
          FirstListed(table, i, emitters.Keys);
          ghost var before := St();
          emitters := emitters[e.id := NewEmitter(laws, e)];
          NewEmitterIsMute(laws, e);
          EmitterAddedKeeps(before, e.id, emitters[e.id], St(), backend.live);
        }
        i := i + 1;
      }
      forall id ensures id in emitters <==> id in TableIds(table) {
        FindsTabled(table, id);
      }
    }

    lemma NewEmitterIsMute(laws: Laws, e: Emitter)
      ensures Mute(NewEmitter(laws, e))
    {
    }

    /** An entry whose id has not come up before is the one the table is searched for. */
    lemma {:induction false} FirstListed(table: seq<Emitter>, i: nat, seen: set<nat>)
      requires i < |table| && table[i].id !in seen && forall j :: 0 <= j < i ==> table[j].id in seen
      ensures FindEmitter(table, table[i].id) == Some(table[i])
    {
      if i > 0 {
        FirstListed(table[1..], i - 1, seen);
      }
    }

    // ----- ranking -----

    /** Observe every source, rank all groups under one budget, mark those that win their voices. */
    method RankCandidates(k: real, w: Window, listener: Listener) returns (ghost cands: seq<Ranking.Candidate>)
      requires Owns(St(), backend.live, {})
      modifies this`clips, this`emitters, this`sessions
      ensures Owns(St(), backend.live, {})
      ensures Lists(laws, Observed(old(St()), w, listener, k), cands)
      ensures St() == Marked(Observed(old(St()), w, listener, k), Ranking.Winners(cands, laws.maxVoices))
      ensures LouderAreHeard(laws, St())
    {
      ghost var was := St();
      ghost var obs := Observed(was, w, listener, k);
      var all := ObserveAll(k, w, listener);
      cands := all;
      all := Ranking.Sort(all);
      RankedLists(laws, obs, cands);
      GrantVoices(all, obs) by { ObservedIsUnmarked(was, w, listener, k); }
      MarkedKeeps(was, w, listener, k, Ranking.Winners(cands, laws.maxVoices), backend.live);
      WinnersAreLouder(laws, obs, cands);
    }

    lemma MarkedKeeps(st: Stores, w: Window, listener: Listener, k: real, won: set<Ranking.GroupKey>, live: set<Handle>)
      requires Owns(st, live, {})
      ensures Owns(Marked(Observed(st, w, listener, k), won), live, {})
    {
      hide Observe;
      Keep(st, Marked(Observed(st, w, listener, k), won), live, {});
    }

    method ObserveAll(k: real, w: Window, listener: Listener) returns (cands: seq<Ranking.Candidate>)
      modifies this`clips, this`emitters, this`sessions
      ensures St() == Observed(old(St()), w, listener, k)
      ensures Lists(laws, St(), cands)
    {
      ghost var obs := Observed(St(), w, listener, k);
      var a := ObserveClips(k, w, listener, obs);
      var b := ObserveEmitters(k, w, listener, obs, a);
      cands := ObserveSessions(k, w, listener, obs, b);
    }

    ghost function ClipKeys(todo: set<nat>): iset<Ranking.GroupKey> {
      iset key: Ranking.GroupKey | key.Clip? && key.id !in todo
    }

    ghost function EmitterKeys(todo: set<nat>): iset<Ranking.GroupKey> {
      iset key: Ranking.GroupKey | key.Clip? || (key.Emitter? && key.id !in todo)
    }

    ghost function VoiceKeys(todo: set<nat>): iset<Ranking.GroupKey> {
      iset key: Ranking.GroupKey | key.Voice? ==> key.id !in todo
    }

    lemma KeysDone(todo: set<nat>, id: nat)
      requires id in todo
      ensures ClipKeys(todo) + iset{Ranking.Clip(id)} == ClipKeys(todo - {id})
      ensures EmitterKeys(todo) + iset{Ranking.Emitter(id)} == EmitterKeys(todo - {id})
      ensures VoiceKeys(todo) + iset{Ranking.Voice(id)} == VoiceKeys(todo - {id})
    {
    }

    method ObserveClips(k: real, w: Window, listener: Listener, ghost obs: Stores)
      returns (cands: seq<Ranking.Candidate>)
      requires obs == Observed(St(), w, listener, k)
      modifies this`clips
      ensures clips == obs.clips && ListsSome(laws, obs, cands, ClipKeys({}))
    {
      hide Observe, ListsSome, Audibility, HeldLayers;
      cands := [];
      var todo := clips.Keys;
      assert ListsSome(laws, obs, [], ClipKeys(todo)) by { NothingListed(obs, ClipKeys(todo)); }
      while todo != {}
        invariant todo <= clips.Keys == old(clips).Keys
        invariant forall id :: id in todo ==> clips[id] == old(clips)[id]
        invariant forall id :: id in clips && id !in todo ==> clips[id] == obs.clips[id]
        invariant ListsSome(laws, obs, cands, ClipKeys(todo))
        decreases |todo|
      {
        var id :| id in todo;
        clips := clips[id := ObservedGroup(clips[id], w, listener, k)];
        var c := ClipCandidate(laws, id, clips[id]);
        assert c.key == Ranking.Clip(id);
        ListsMore(laws, obs, cands, ClipKeys(todo), c);
        KeysDone(todo, id);
        cands := cands + [c];
        todo := todo - {id};
      }
    }

    lemma NothingListed(obs: Stores, keys: iset<Ranking.GroupKey>)
      requires forall key :: key in keys ==> !Stands(obs, key)
      ensures ListsSome(laws, obs, [], keys)
    {
    }

    method ObserveEmitters(k: real, w: Window, listener: Listener, ghost obs: Stores, some: seq<Ranking.Candidate>)
      returns (cands: seq<Ranking.Candidate>)
      requires obs.emitters == Observed(St(), w, listener, k).emitters && ListsSome(laws, obs, some, ClipKeys({}))
      modifies this`emitters
      ensures emitters == obs.emitters && ListsSome(laws, obs, cands, EmitterKeys({}))
    {
      hide Observe, ListsSome, Audibility, PeakDraw, ClipCandidate;
      cands := some;
      var todo := emitters.Keys;
      assert ListsSome(laws, obs, cands, EmitterKeys(todo))
        by { MoreUnlisted(obs, cands, ClipKeys({}), EmitterKeys(todo)); }
      while todo != {}
        invariant todo <= emitters.Keys == old(emitters).Keys
        invariant forall id :: id in todo ==> emitters[id] == old(emitters)[id]
        invariant forall id :: id in emitters && id !in todo ==> emitters[id] == obs.emitters[id]
        invariant ListsSome(laws, obs, cands, EmitterKeys(todo))
        decreases |todo|
      {
        var id :| id in todo;
        emitters := emitters[id := ObservedEmitter(emitters[id], w, listener, k)];
        var c := EmitterCandidate(laws, id, emitters[id]);
        assert c.key == Ranking.Emitter(id);
        ListsMore(laws, obs, cands, EmitterKeys(todo), c);
        KeysDone(todo, id);
        cands := cands + [c];
        todo := todo - {id};
      }
    }

    lemma MoreUnlisted(obs: Stores, cands: seq<Ranking.Candidate>, keys: iset<Ranking.GroupKey>,
        more: iset<Ranking.GroupKey>)
      requires ListsSome(laws, obs, cands, keys) && keys <= more
      requires forall key :: key in more && key !in keys ==> !Stands(obs, key)
      ensures ListsSome(laws, obs, cands, more)
    {
    }

    method ObserveSessions(k: real, w: Window, listener: Listener, ghost obs: Stores, some: seq<Ranking.Candidate>)
      returns (cands: seq<Ranking.Candidate>)
      requires obs.sessions == Observed(St(), w, listener, k).sessions && ListsSome(laws, obs, some, EmitterKeys({}))
      modifies this`sessions
      ensures sessions == obs.sessions && Lists(laws, obs, cands)
    {
      hide Observe, ListsSome, Audibility, ClipCandidate, EmitterCandidate;
      cands := some;
      var todo := sessions.Keys;
      assert ListsSome(laws, obs, cands, VoiceKeys(todo)) by {
        MoreUnlisted(obs, cands, EmitterKeys({}), VoiceKeys(todo));
      }
      hide VoiceKeys, EmitterKeys;
      while todo != {}
        invariant todo <= sessions.Keys == old(sessions).Keys
        invariant forall id :: id in todo ==> sessions[id] == old(sessions)[id]
        invariant forall id :: id in sessions && id !in todo ==> sessions[id] == obs.sessions[id]
        invariant ListsSome(laws, obs, cands, VoiceKeys(todo))
        decreases |todo|
      {
        var id :| id in todo;
        sessions := sessions[id := ObservedSession(sessions[id], w, listener, k)];
        if sessions[id].Streaming? && sessions[id].present {
          var c := VoiceCandidate(laws, id, sessions[id]);
          assert c.key == Ranking.Voice(id);
          ListsMore(laws, obs, cands, VoiceKeys(todo), c);
          KeysDone(todo, id);
          cands := cands + [c];
        } else {
          VoiceUnlisted(obs, cands, todo, id);
        }
        todo := todo - {id};
      }
      assert Lists(laws, obs, cands) by { AllListed(obs, cands); }
    }

    lemma VoiceUnlisted(obs: Stores, cands: seq<Ranking.Candidate>, todo: set<nat>, id: nat)
      requires ListsSome(laws, obs, cands, VoiceKeys(todo)) && !Heard(obs.sessions, id)
      ensures ListsSome(laws, obs, cands, VoiceKeys(todo - {id}))
    {
      MoreUnlisted(obs, cands, VoiceKeys(todo), VoiceKeys(todo - {id}));
    }

    lemma AllListed(obs: Stores, cands: seq<Ranking.Candidate>)
      requires ListsSome(laws, obs, cands, VoiceKeys({}))
      ensures Lists(laws, obs, cands)
    {
    }

    /** Walk down the ranking; a group that does not fit is skipped whole. */
    method GrantVoices(ranked: seq<Ranking.Candidate>, ghost obs: Stores)
      requires St() == obs == Marked(obs, {})
      requires forall i :: 0 <= i < |ranked| ==> Stands(obs, ranked[i].key)
      modifies this`clips, this`emitters, this`sessions
      ensures St() == Marked(obs, Ranking.Granted(ranked, laws.maxVoices))
    {
      hide Marked, Stands;
      ghost var won: set<Ranking.GroupKey> := {};
      var remaining: nat := laws.maxVoices;
      var i := 0;
      while i < |ranked|
        invariant 0 <= i <= |ranked|
        invariant St() == Marked(obs, won)
        invariant Ranking.Granted(ranked, laws.maxVoices) == won + Ranking.Granted(ranked[i..], remaining)
      {
        var c := ranked[i];
        assert ranked[i..][0] == c && ranked[i..][1..] == ranked[i + 1..];
        if c.cost <= remaining {
          remaining := remaining - c.cost;
          ghost var was := St();
          MarkedMore(obs, won, c.key);
          MarkWinner(c.key);
          won := won + {c.key};
        }
        i := i + 1;
      }
      assert ranked[i..] == [];
    }

    method MarkWinner(key: Ranking.GroupKey)
      requires Stands(St(), key)
      modifies this`clips, this`emitters, this`sessions
      ensures St() == MarkedOne(old(St()), key)
    {
      match key {
        case Clip(id) => clips := clips[id := clips[id].(won := true)];
        case Emitter(id) => emitters := emitters[id := emitters[id].(won := true)];
        case Voice(id) => sessions := sessions[id := sessions[id].(won := true)];
      }
    }

    // ----- a frame -----

    lemma GroupReleased(
      base: map<Handle, real>, from: Stores, to: Stores, live: set<Handle>, was: map<Handle, real>,
      now: map<Handle, real>,
      id: nat, done: iset<Slot>)
      requires Owns(to, live, {}) && id in from.clips && to == from.(clips := from.clips - {id})
      requires Tuned(laws, mix, base, from, was, done)
      requires forall h :: h in live && h in was ==> h in now && now[h] == was[h]
      ensures Tuned(laws, mix, base, to, now, done)
    {
      hide ClipGain, EmitterGain, SessionGain;
      TunedSubset(laws, mix, base, from, to, was, now, done);
    }

    /** Groups past their duration go, and their voices with them. */
    method ReleaseFinished(ghost base: map<Handle, real>, ghost done: iset<Slot>)
      requires backend.Valid() && Owns(St(), backend.live, {})
      requires Tuned(laws, mix, base, St(), backend.gains, done)
      modifies this`clips, backend`live, backend`gains, backend`stopped, backend`log
      ensures backend.Valid() && Owns(St(), backend.live, {})
      ensures clips == map id | id in old(clips) && !Expired(laws, old(clips)[id]) :: old(clips)[id]
      ensures forall id :: id in old(clips) ==>
        (id in clips <==> old(clips)[id].age < MaxDuration(laws, old(clips)[id].cue))
      ensures Tuned(laws, mix, base, St(), backend.gains, done)
      ensures SameRequests(old(backend.log), backend.log)
    {
      hide StoppedOnce, Owns, Tuned, Expired, RequestsFor, MaxDuration;
      var todo := set id | id in clips && Expired(laws, clips[id]);
      ghost var finished := todo;
      while todo != {}
        invariant todo <= finished && clips == old(clips) - (finished - todo)
        invariant backend.Valid() && Owns(St(), backend.live, {})
        invariant Tuned(laws, mix, base, St(), backend.gains, done)
        invariant SameRequests(old(backend.log), backend.log)
        decreases |todo|
      {
        var id :| id in todo;
        ghost var was, gains := St(), backend.gains;
        StopGroup(id);
        GroupReleased(base, was, St(), backend.live, gains, backend.gains, id, done);
        todo := todo - {id};
      }
      assert todo == {} && clips == old(clips) - finished;
      forall id | id in old(clips) ensures id in clips <==> old(clips)[id].age < MaxDuration(laws, old(clips)[id].cue) {
        ExpiredIsOver(laws, old(clips)[id]);
      }
    }

    lemma UiTuned(base: map<Handle, real>)
      requires Owns(St(), backend.live, {}) && backend.Valid()
      requires forall h :: h in backend.live ==> h in base && backend.gains[h] == base[h]
      ensures Tuned(laws, mix, base, St(), backend.gains, UiSlots())
    {
    }

    lemma SessionsKept(
      st: Stores, w: Window, listener: Listener, k: real, won: set<Ranking.GroupKey>, streams: map<Handle, (nat, nat)>)
      requires OwnStreams(st.sessions, streams) && MirrorsStreams(starved, st.sessions)
      ensures var now := Marked(Observed(st, w, listener, k), won).sessions;
              Marked(Observed(st, w, listener, k), won).clips.Keys == st.clips.Keys
              && Sessions.OnlyHeard(st.sessions, now) && OwnStreams(now, streams) && MirrorsStreams(starved, now)
    {
      hide Observe;
    }

    /** New sources in, all ranked. */
    method RankSources(frame: Frame, w: Window) returns (ghost cands: seq<Ranking.Candidate>)
      requires Valid() && Increasing(frame.occurrences)
      modifies this`clips, this`emitters, this`sessions, this`mark, this`realized, backend`live, backend`gains,
        backend`stopped, backend`log
      ensures Valid()
      ensures mark == Highest(old(mark), frame.occurrences)
      ensures realized == old(realized) + FreshIds(old(mark), frame.occurrences)
      ensures Lists(laws, Sourced(laws, old(St()), old(mark), frame, w), cands)
      ensures St() == Ranked(laws, old(St()), old(mark), frame, w, cands)
      ensures Sessions.OnlyHeard(old(sessions), sessions)
      ensures forall h :: h in backend.live ==> h in old(backend.gains) && backend.gains[h] == old(backend.gains)[h]
      ensures SameRequests(old(backend.log), backend.log)
    {
      hide SameRequests, StoppedOnce, Owns, Realized, Highest, FreshIds, Reconciled, Observed, Marked, OwnStreams,
        MirrorsStreams, UnderMark, Lists;
      RealizeOccurrences(frame.dt, frame.occurrences);
      ReconcileEmitters(frame.emitters);
      ghost var sourced := St();
      cands := RankCandidates(Factor(laws, frame.dt), w, frame.listener);
      SessionsKept(sourced, w, frame.listener, Factor(laws, frame.dt), Ranking.Winners(cands, laws.maxVoices),
        backend.streams);
      StillUnderMark(sourced.clips, clips, mark);
    }

    /** Every ranked source steps, and every voice gets its level. */
    method DriveSources(ghost base: map<Handle, real>)
      requires Valid()
      requires forall h :: h in backend.live ==> h in base && backend.gains[h] == base[h]
      modifies this`clips, this`emitters, backend
      ensures Valid() && backend.feeds == old(backend.feeds)
      ensures clips.Keys == old(clips).Keys && forall id :: id in clips ==> GroupStep(old(clips)[id], clips[id])
      ensures emitters.Keys == old(emitters).Keys
      ensures forall id :: id in emitters ==> EmitterStep(old(emitters)[id], emitters[id])
      ensures FrameAsked(laws, mix, old(St()), St(), old(backend.log), backend.log)
      ensures Tuned(laws, mix, base, St(), backend.gains, AllSlots())
    {
      hide StoppedOnce, Owns, Tuned, GroupStep, EmitterStep, OwnStreams, MirrorsStreams, UnderMark,
        UiSlots, ClipSlotsBut, EmitterSlotsBut, SessionSlotsBut, SameRequests, ClipsAsked, EmittersAsked, FrameAsked;
      UiTuned(base);
      ghost var ranked, log := St(), backend.log;
      ApplyClipGroups(base, UiSlots());
      ghost var clipped := backend.log;
      ApplyEmitters(base, UiSlots() + ClipSlotsBut({}));
      ghost var looped := backend.log;
      ApplySessions(base, UiSlots() + ClipSlotsBut({}) + EmitterSlotsBut({}));
      FrameAskedWhole(laws, mix, ranked, St(), log, clipped, looped, backend.log);
      StillUnderMark(old(clips), clips, mark);
    }

    /** The ranked groups driven, finished ones out. */
    method DriveBackend(ghost base: map<Handle, real>) returns (ghost driven: Stores)
      requires Valid()
      requires forall h :: h in backend.live ==> h in base && backend.gains[h] == base[h]
      modifies this`clips, this`emitters, backend
      ensures Valid() && backend.feeds == old(backend.feeds)
      ensures FrameOf(laws, old(St()), St())
      ensures Drove(laws, mix, old(St()), driven, St(), old(backend.log), backend.log)
      ensures Tuned(laws, mix, base, St(), backend.gains, AllSlots())
    {
      hide StoppedOnce, Owns, Tuned, GroupStep, EmitterStep, Expired, OwnStreams, MirrorsStreams, UnderMark,
        AllSlots, FrameOf, FrameAsked, SameRequests;
      ghost var ranked, log := St(), backend.log;
      DriveSources(base);
      driven := St();
      ghost var later := backend.log;
      ReleaseFinished(base, AllSlots());
      FrameDone(laws, ranked, driven, St());
      FrameAskedFrom(laws, mix, ranked, driven, log, log, later, backend.log) by { NoRequests(log); }
      StillUnderMark(ranked.clips, clips, mark);
    }

    /** The live part of a submit. Afterwards every held voice has its level and the budget holds. */
    method MixFrame(frame: Frame, w: Window)
      returns (ghost cands: seq<Ranking.Candidate>, ghost driven: Stores)
      requires Valid() && Increasing(frame.occurrences)
      modifies this`clips, this`emitters, this`sessions, this`mark, this`realized, backend
      ensures Valid() && backend.feeds == old(backend.feeds) && ui == old(ui)
      ensures mark == Highest(old(mark), frame.occurrences)
      ensures realized == old(realized) + FreshIds(old(mark), frame.occurrences)
      ensures Lists(laws, Sourced(laws, old(St()), old(mark), frame, w), cands)
      ensures FrameOf(laws, Ranked(laws, old(St()), old(mark), frame, w, cands), St())
      ensures Sessions.OnlyHeard(old(sessions), sessions)
      ensures Drove(laws, mix, Ranked(laws, old(St()), old(mark), frame, w, cands), driven, St(),
                    old(backend.log), backend.log)
      ensures Tuned(laws, mix, old(backend.gains), St(), backend.gains, AllSlots())
      ensures |Busy(St())| <= laws.maxVoices
    {
      hide Valid, Owns, Tuned, Realized, Highest, FreshIds, Sourced, Marked, GroupStep, EmitterStep, Expired,
        Lists, AllSlots, Busy, Drove, SameRequests;
      ghost var sources := Sourced(laws, St(), mark, frame, w);
      cands := RankSources(frame, w);
      ghost var ranked, log := St(), backend.log;
      driven := DriveBackend(old(backend.gains));
      DroveFrom(ranked, driven, St(), old(backend.log), log, backend.log);
      FitsBudget(laws, sources, cands, St());
    }

    lemma StillUnderMark(was: map<nat, Group>, now: map<nat, Group>, mark: Option<nat>)
      requires UnderMark(was, mark) && now.Keys <= was.Keys
      ensures UnderMark(now, mark)
    {
    }

    lemma DroveFrom(ranked: Stores, driven: Stores, st: Stores, log: seq<Call>, ranking: seq<Call>, later: seq<Call>)
      requires SameRequests(log, ranking) && Drove(laws, mix, ranked, driven, st, ranking, later)
      ensures Drove(laws, mix, ranked, driven, st, log, later)
    {
      hide FrameAsked, SameRequests;
      NoRequests(later);
      FrameAskedFrom(laws, mix, ranked, driven, log, ranking, later, later);
    }

    lemma NoRequests(log: seq<Call>)
      ensures SameRequests(log, log)
    {
    }

    lemma FrameDone(laws: Laws, ranked: Stores, driven: Stores, st: Stores)
      requires driven.clips.Keys == ranked.clips.Keys
      requires forall id :: id in driven.clips ==> GroupStep(ranked.clips[id], driven.clips[id])
      requires driven.emitters.Keys == ranked.emitters.Keys
      requires forall id :: id in driven.emitters ==> EmitterStep(ranked.emitters[id], driven.emitters[id])
      requires driven.sessions == ranked.sessions && driven.ui == ranked.ui
      requires st ==
        driven.(clips := map id | id in driven.clips && !Expired(laws, driven.clips[id]) :: driven.clips[id])
      ensures FrameOf(laws, ranked, st)
    {
      forall id | id in ranked.clips ensures Expired(laws, ranked.clips[id]) == Expired(laws, driven.clips[id]) {
        assert GroupStep(ranked.clips[id], driven.clips[id]);
      }
    }

    /** Edge-triggered: the streams whose flag has risen since the last poll. */
    method PollStarvation(raised: set<nat>) returns (reports: set<nat>)
      requires Valid()
      modifies this`starved
      ensures Valid()
      ensures reports == set key | key in old(starved) && !old(starved)[key] && key in raised
      ensures forall key :: key in starved ==> starved[key] == (key in raised)
    {
      hide StoppedOnce, Owns, UnderMark, OwnStreams;
      reports := set key | key in starved && !starved[key] && key in raised;
      starved := map key | key in starved :: key in raised;
    }

    predicate LiveSources()
      reads this
    {
      clips != map[] || emitters != map[] || sessions != map[]
    }

    /** With no source left the only voices alive are those of the menus. */
    lemma SilentWithoutSources()
      requires Valid() && !LiveSources()
      ensures forall h :: h in backend.live <==> UiHolds(ui, h)
    {
      forall h | UiHolds(ui, h) ensures h in backend.live {
        assert At(St(), UiSlot(h)) == Some(h);
      }
      forall h | h in backend.live ensures UiHolds(ui, h) {
        assert Held(St(), h);
      }
    }

    /** One source of any kind, a closed session's floor included, is enough to keep mixing. */
    lemma OneSourceIsEnough()
      ensures LiveSources() <==> exists id :: id in clips || id in emitters || id in sessions
    {
    }

    /** A dead backend still advances the mark, so that ids never replay as fresh. */
    method RaiseMark(occs: seq<Occurrence>)
      requires Valid()
      modifies this`mark
      ensures Valid() && mark == Highest(old(mark), occs)
    {
      hide StoppedOnce, Owns, UnderMark, OwnStreams, MirrorsStreams;
      RaisedKeeps(clips, mark, occs);
      var i := 0;
      while i < |occs|
        invariant 0 <= i <= |occs|
        invariant mark == Highest(old(mark), occs[..i])
      {
        assert occs[..i + 1][..i] == occs[..i];
        mark := Raised(mark, occs[i].id);
        i := i + 1;
      }
      assert occs[..i] == occs;
    }

    method Submit(frame: Frame, raised: set<nat>)
      returns (outcome: Outcome, ghost cands: seq<Ranking.Candidate>, ghost driven: Stores)
      requires Valid() && Increasing(frame.occurrences)
      modifies this, backend
      ensures Valid() && mix == old(mix) && uiCounter == old(uiCounter)
      ensures ui == old(ui) && backend.feeds == old(backend.feeds) && lastListener == frame.listener
      ensures Sessions.OnlyHeard(old(sessions), sessions)
      ensures mark == if outcome.Dead? || outcome.Mixed? then Highest(old(mark), frame.occurrences) else old(mark)
      ensures outcome.Dead? <==> !backend.device.up
      ensures !outcome.Dead? ==>
        (outcome.Idle? <==> !old(LiveSources()) && frame.occurrences == [] && frame.emitters == [])
      ensures outcome.Blind? ==> frame.window.None?
      ensures !outcome.Mixed? ==>
        && St() == old(St()) && realized == old(realized)
        && backend.live == old(backend.live) && backend.gains == old(backend.gains) && backend.log == old(backend.log)
      ensures outcome.Mixed? ==> frame.window.Some? && |Busy(St())| <= laws.maxVoices
      ensures outcome.Mixed? ==> realized == old(realized) + FreshIds(old(mark), frame.occurrences)
      ensures outcome.Mixed? ==>
        Tuned(laws, mix, old(backend.gains), St(), backend.gains, AllSlots())
      ensures outcome.Mixed? ==>
        var w := frame.window.value;
        && Lists(laws, Sourced(laws, old(St()), old(mark), frame, w), cands)
        && FrameOf(laws, Ranked(laws, old(St()), old(mark), frame, w, cands), St())
        && Drove(laws, mix, Ranked(laws, old(St()), old(mark), frame, w, cands), driven, St(),
                 old(backend.log), backend.log)
        && LouderAreHeard(laws, Ranked(laws, old(St()), old(mark), frame, w, cands))
    {
      hide OwnStreams, MirrorsStreams, UnderMark, Sessions.OnlyHeard, StoppedOnce, Owns, Tuned, Realized, FreshIds,
        Sourced, Ranked, FrameOf, Lists, AllSlots, Busy, Drove, LouderAreHeard;
      cands, driven := [], St();
      SameTable(sessions);
      var reports := PollStarvation(raised);
      var alive := backend.Alive();
      lastListener := frame.listener;
      if !alive {
        RaiseMark(frame.occurrences);
        return Dead, cands, driven;
      }
      if !LiveSources() && frame.occurrences == [] && frame.emitters == [] {
        return Idle, cands, driven;
      }
      match frame.window {
        case None => return Blind, cands, driven;
        case Some(w) =>
          cands, driven := MixFrame(frame, w);
          RankedAreLouder(laws, old(St()), old(mark), frame, w, cands);
          return Mixed, cands, driven;
      }
    }

    lemma SameTable(t: Sessions.Table)
      ensures Sessions.OnlyHeard(t, t)
    {
    }

    lemma {:induction false} RaisedKeeps(clips: map<nat, Group>, mark: Option<nat>, occs: seq<Occurrence>)
      requires UnderMark(clips, mark)
      ensures UnderMark(clips, Highest(mark, occs))
    {
      if occs != [] {
        RaisedKeeps(clips, mark, occs[..|occs| - 1]);
      }
    }

    // ----- voice sessions -----

    lemma StreamIn(st: Stores, key: nat, s: Session, to: Stores, live: set<Handle>)
      requires s.Streaming? && s.voice !in live && Owns(st, live, {})
      requires At(st, SessionSlot(key)).None? && to == st.(sessions := st.sessions[key := s])
      ensures Owns(to, live + {s.voice}, {})
    {
      SessionSet(st, key, s, to);
      Opened(st, live, {}, s.voice);
      PutIn(st, to, SessionSlot(key), s.voice, live + {s.voice}, {s.voice});
      assert {s.voice} - {s.voice} == {};
    }

    lemma StreamOut(st: Stores, key: nat, to: Stores, live: set<Handle>)
      requires Owns(st, live, {}) && key in st.sessions && st.sessions[key].Streaming?
      requires to == st.(sessions := st.sessions - {key})
      ensures st.sessions[key].voice in live && Owns(to, live - {st.sessions[key].voice}, {})
    {
      var v := st.sessions[key].voice;
      assert At(st, SessionSlot(key)) == Some(v);
      SessionRemoved(st, key, to);
      TakeOut(st, to, SessionSlot(key), v, live, {});
      assert {} + {v} == {v};
      Closed(to, live, {v}, v);
      assert {v} - {v} == {};
    }

    lemma TombstoneIn(st: Stores, key: nat, floor: nat, to: Stores, live: set<Handle>)
      requires Owns(st, live, {}) && At(st, SessionSlot(key)).None?
      requires to == st.(sessions := st.sessions[key := Tombstone(floor)])
      ensures Owns(to, live, {})
    {
      SessionSet(st, key, Tombstone(floor), to);
      Keep(st, to, live, {});
    }

    lemma QuietKeyRemoved(st: Stores, key: nat, to: Stores, live: set<Handle>)
      requires Owns(st, live, {}) && At(st, SessionSlot(key)).None? && to == st.(sessions := st.sessions - {key})
      ensures Owns(to, live, {})
    {
      SessionRemoved(st, key, to);
      Keep(st, to, live, {});
    }

    /** What is left of a session that could not be opened. */
    method LeaveFloor(key: nat, floor: Option<nat>)
      requires Valid() && (key in sessions ==> sessions[key].Tombstone?)
      modifies this`sessions
      ensures Valid() && sessions == Sessions.AfterOpen(old(sessions), key, 0, floor, None)
    {
      hide StoppedOnce, Owns, UnderMark;
      ghost var was := St();
      if floor.Some? {
        sessions := sessions[key := Tombstone(floor.value)];
        TombstoneIn(was, key, floor.value, St(), backend.live);
      }
    }

    /** Open a stream for the packet's epoch and seed it; a failure leaves the floor as a tombstone. */
    method OpenSession(pkt: Packet, floor: Option<nat>) returns (grant: Option<Handle>)
      requires Valid() && (pkt.session in sessions ==> sessions[pkt.session].Tombstone?)
      modifies this`sessions, this`starved, backend
      ensures Valid()
      ensures sessions == Sessions.AfterOpen(old(sessions), pkt.session, pkt.epoch, floor, grant)
      ensures CallsFor(old(backend.log), backend.log, grant, pkt)
      ensures StreamOpened(old(backend.live), old(backend.gains), old(backend.streams), old(backend.feeds), pkt, grant)
      ensures grant.Some? ==> grant.value >= old(backend.next)
      ensures KeptGains(old(backend.gains), backend.gains)
    {
      hide StoppedOnce, Owns, UnderMark, MirrorsStreams, FedOwnEpoch;
      var key := pkt.session;
      ghost var live := backend.live;
      var alive := backend.Alive();
      if !alive {
        LeaveFloor(key, floor);
        return None;
      }
      grant := backend.PlayStream(key, pkt.epoch);
      match grant {
        case Some(v) => SeedStream(pkt, v, live);
        case None => LeaveFloor(key, floor);
      }
    }

    lemma StreamListed(
      sessions: map<nat, Session>, starved: map<nat, bool>, streams: map<Handle, (nat, nat)>, key: nat, epoch: nat,
      v: Handle)
      requires OwnStreams(sessions, streams) && MirrorsStreams(starved, sessions)
      requires v in streams && streams[v] == (key, epoch)
      ensures OwnStreams(sessions[key := Sessions.Fresh(epoch, v)], streams)
      ensures MirrorsStreams(starved[key := false], sessions[key := Sessions.Fresh(epoch, v)])
    {
    }

    /** A granted stream gets its first packet and its entry. */
    method SeedStream(pkt: Packet, v: Handle, ghost live: set<Handle>)
      requires backend.Valid() && UnderMark(clips, mark) && MirrorsStreams(starved, sessions)
      requires Owns(St(), live, {}) && v !in live && backend.live == live + {v}
      requires pkt.session in sessions ==> sessions[pkt.session].Tombstone?
      requires v in backend.feeds && backend.feeds[v] == [] && backend.streams[v] == (pkt.session, pkt.epoch)
      requires OwnStreams(sessions, backend.streams)
      modifies this`sessions, this`starved, backend`feeds
      ensures Valid() && sessions == old(sessions)[pkt.session := Sessions.Fresh(pkt.epoch, v)]
      ensures backend.feeds == old(backend.feeds)[v := [pkt]]
    {
      hide StoppedOnce, Owns, UnderMark, OwnStreams, MirrorsStreams, FedOwnEpoch;
      ghost var was := St();
      StreamListed(sessions, starved, backend.streams, pkt.session, pkt.epoch, v);
      backend.Seed(v, pkt);
      sessions := sessions[pkt.session := Sessions.Fresh(pkt.epoch, v)];
      starved := starved[pkt.session := false];
      StreamIn(was, pkt.session, sessions[pkt.session], St(), live);
    }

    /** The backend gained the granted stream, muted, holding its first packet, and nothing else. */
    ghost predicate StreamOpened(
      live: set<Handle>, gains: map<Handle, real>, streams: map<Handle, (nat, nat)>, feeds: map<Handle, seq<Packet>>,
      pkt: Packet, grant: Option<Handle>)
      reads backend
    {
      match grant
      case Some(v) =>
        && v !in live && backend.live == live + {v} && backend.gains == gains[v := 0.0]
        && backend.streams == streams[v := (pkt.session, pkt.epoch)] && backend.feeds == feeds[v := [pkt]]
      case None =>
        backend.live == live && backend.gains == gains && backend.streams == streams && backend.feeds == feeds
    }

    /** What a packet that opens a stream leaves: the old stream gone, the granted one there. */
    ghost predicate Reopened(
      t: Sessions.Table, live: set<Handle>, gains: map<Handle, real>, streams: map<Handle, (nat, nat)>,
      feeds: map<Handle, seq<Packet>>, pkt: Packet, grant: Option<Handle>)
      reads backend
    {
      var gone := StreamOfKey(t, pkt.session);
      StreamOpened(live - gone, gains - gone, streams, feeds, pkt, grant)
    }

    /** The epoch went up: the old voice is stopped before the new stream is asked for. */
    method BumpSession(pkt: Packet) returns (grant: Option<Handle>)
      requires Valid() && pkt.session in sessions && sessions[pkt.session].Streaming?
      requires sessions[pkt.session].epoch < pkt.epoch
      modifies this`sessions, this`starved, backend
      ensures Valid()
      ensures PacketAnswered(old(sessions), sessions, old(backend.log), backend.log, pkt, grant, false,
                             backend.device.up)
      ensures Reopened(old(sessions), old(backend.live), old(backend.gains), old(backend.streams), old(backend.feeds),
                       pkt, grant)
      ensures KeptGains(old(backend.gains), backend.gains)
    {
      hide StoppedOnce, Owns, UnderMark, MirrorsStreams, FedOwnEpoch, OwnStreams;
      ghost var live := backend.live;
      assert forall h :: h in live ==> h < backend.next;
      var current := sessions[pkt.session].epoch;
      StopStream(pkt.session);
      grant := OpenSession(pkt, Some(current));
    }

    /** A packet of the stream's own epoch: its queue takes it, or is full. */
    method FeedSession(pkt: Packet) returns (took: bool)
      requires Valid() && pkt.session in sessions && sessions[pkt.session].Streaming?
      requires sessions[pkt.session].epoch == pkt.epoch
      modifies backend`feeds, backend`log
      ensures Valid()
      ensures backend.log == old(backend.log) + [Offered(sessions[pkt.session].voice, pkt, took)]
      ensures backend.feeds == FedTo(old(backend.feeds), sessions, pkt, took)
    {
      hide StoppedOnce, Owns, UnderMark, MirrorsStreams, FedOwnEpoch;
      var v := sessions[pkt.session].voice;
      assert At(St(), SessionSlot(pkt.session)) == Some(v);
      HeldIsLive(St(), backend.live, SessionSlot(pkt.session));
      took := backend.Feed(v, pkt);
    }

    /** One encoded packet: dropped, fed, or opening a stream, the old one stopped first. */
    method IngestVoice(pkt: Packet) returns (grant: Option<Handle>, ghost took: bool)
      requires Valid()
      modifies this`sessions, this`starved, backend
      ensures Valid()
      ensures PacketAnswered(old(sessions), sessions, old(backend.log), backend.log, pkt, grant, took,
                             backend.device.up)
      ensures sessions == Sessions.AfterPacket(old(sessions), pkt.session, pkt.epoch, grant)
      ensures Sessions.Newer(old(sessions), pkt.session, pkt.epoch) ==>
        Reopened(old(sessions), old(backend.live), old(backend.gains), old(backend.streams), old(backend.feeds),
                 pkt, grant)
      ensures !Sessions.Newer(old(sessions), pkt.session, pkt.epoch) ==>
        && backend.live == old(backend.live) && backend.gains == old(backend.gains)
        && backend.streams == old(backend.streams)
        && backend.feeds == FedTo(old(backend.feeds), old(sessions), pkt, took)
      ensures KeptGains(old(backend.gains), backend.gains)
    {
      hide Valid, StreamOpened;
      grant, took := None, false;
      match Sessions.Decide(sessions, pkt.session, pkt.epoch) {
        case Drop =>
        case Feed =>
          took := FeedSession(pkt);
        case OpenNew(floor) =>
          assert backend.live - {} == backend.live && backend.gains - {} == backend.gains;
          grant := OpenSession(pkt, floor);
        case Bump(_) =>
          grant := BumpSession(pkt);
      }
    }

    /** With a device the backend is asked for the stream exactly once, without one never. */
    ghost predicate CallsFor(was: seq<Call>, now: seq<Call>, grant: Option<Handle>, pkt: Packet)
      reads backend.device
    {
      if backend.device.up then now == was + [RequestedStream(grant, pkt.session, pkt.epoch)]
      else now == was && grant.None?
    }

    /** A stream goes with its session's entry. */
    method StopStream(key: nat)
      requires Valid() && key in sessions && sessions[key].Streaming?
      modifies this`sessions, this`starved, backend`live, backend`gains, backend`stopped, backend`log
      ensures Valid() && sessions == old(sessions) - {key}
      ensures var v := old(sessions)[key].voice;
              && backend.live == old(backend.live) - {v} && backend.gains == old(backend.gains) - {v}
              && backend.log == old(backend.log) + [Stopped(v)]
      ensures SameRequests(old(backend.log), backend.log)
    {
      hide StoppedOnce, Owns, UnderMark;
      var v := sessions[key].voice;
      ghost var was := St();
      sessions := sessions - {key};
      StreamOut(was, key, St(), backend.live);
      backend.Stop(v);
      starved := starved - {key};
    }

    lemma SessionRetuned(st: Stores, key: nat, s: Session, to: Stores, live: set<Handle>)
      requires Owns(st, live, {}) && key in st.sessions && Sessions.SameStream(st.sessions[key], s)
      requires to == st.(sessions := st.sessions[key := s])
      ensures Owns(to, live, {})
    {
      SessionSet(st, key, s, to);
      Keep(st, to, live, {});
    }

    method SetSessionPresent(key: nat, present: bool, at: Option<Position>)
      requires Valid()
      modifies this`sessions
      ensures Valid() && sessions == Sessions.AfterPresent(old(sessions), key, present, at)
      ensures sessions.Keys == old(sessions).Keys
      ensures forall k :: k in sessions && k != key ==> sessions[k] == old(sessions)[k]
      ensures key in sessions && old(sessions)[key].Tombstone? ==> sessions[key] == old(sessions)[key]
      ensures key in sessions && old(sessions)[key].Streaming? ==>
        && sessions[key].Streaming? && Sessions.SameStream(old(sessions)[key], sessions[key])
        && sessions[key].present == present && sessions[key].smooth == old(sessions)[key].smooth
        && sessions[key].lastAt == (if at.Some? then at else old(sessions)[key].lastAt)
    {
      hide StoppedOnce, Owns, UnderMark;
      ghost var was := St();
      if key in sessions && sessions[key].Streaming? {
        sessions := sessions[key := sessions[key].(present := present)];
        if at.Some? {
          sessions := sessions[key := sessions[key].(lastAt := at)];
        }
        assert sessions == was.sessions[key := sessions[key]];
        SessionRetuned(was, key, sessions[key], St(), backend.live);
      }
    }

    method CloseSession(key: nat)
      requires Valid()
      modifies this`sessions, this`starved, backend`live, backend`gains, backend`stopped, backend`log
      ensures Valid() && sessions == Sessions.AfterClose(old(sessions), key)
      ensures backend.log == old(backend.log)
        + (if key in old(sessions) && old(sessions)[key].Streaming? then [Stopped(old(sessions)[key].voice)] else [])
      ensures SameRequests(old(backend.log), backend.log) && Fewer(old(backend.gains), backend.gains)
    {
      hide StoppedOnce, Owns, UnderMark;
      if key in sessions && sessions[key].Streaming? {
        var epoch := sessions[key].epoch;
        StopStream(key);
        LeaveFloor(key, Some(epoch));
      } else {
        ghost var was := St();
        sessions := sessions - {key};
        starved := starved - {key};
        QuietKeyRemoved(was, key, St(), backend.live);
      }
    }

    // ----- UI voices -----

    lemma UiOut(st: Stores, i: nat, to: Stores, live: set<Handle>)
      requires Owns(st, live, {}) && i < |st.ui| && to == st.(ui := SwapRemoved(st.ui, i))
      ensures st.ui[i].voice in live && Owns(to, live - {st.ui[i].voice}, {})
    {
      var v := st.ui[i].voice;
      assert At(st, UiSlot(v)) == Some(v);
      UiRemoved(st, i, to);
      TakeOut(st, to, UiSlot(v), v, live, {});
      assert {} + {v} == {v};
      Closed(to, live, {v}, v);
      assert {v} - {v} == {};
    }

    lemma UiIn(st: Stores, u: UiVoice, to: Stores, live: set<Handle>)
      requires Owns(st, live, {}) && u.voice !in live && to == st.(ui := st.ui + [u])
      ensures Owns(to, live + {u.voice}, {})
    {
      assert At(st, UiSlot(u.voice)).None?;
      UiPushed(st, u, to);
      Opened(st, live, {}, u.voice);
      PutIn(st, to, UiSlot(u.voice), u.voice, live + {u.voice}, {u.voice});
      assert {u.voice} - {u.voice} == {};
    }

    /** `swap_remove`, then stop. */
    method StopUi(i: nat)
      requires backend.Valid() && Owns(St(), backend.live, {}) && i < |ui|
      modifies this`ui, backend`live, backend`gains, backend`stopped, backend`log
      ensures backend.Valid() && Owns(St(), backend.live, {}) && ui == SwapRemoved(old(ui), i)
      ensures backend.live == old(backend.live) - {old(ui)[i].voice}
      ensures backend.gains == old(backend.gains) - {old(ui)[i].voice}
      ensures backend.log == old(backend.log) + [Stopped(old(ui)[i].voice)]
      ensures SameRequests(old(backend.log), backend.log)
    {
      hide StoppedOnce, Owns;
      var v := ui[i].voice;
      ghost var was := St();
      ui := SwapRemoved(ui, i);
      UiOut(was, i, St(), backend.live);
      backend.Stop(v);
    }

    /** Nothing new, and whatever has time left stays. */
    ghost predicate Pruned(was: seq<UiVoice>, ui: seq<UiVoice>, now: real) {
      && (forall u :: u in ui ==> u in was)
      && (forall u :: u in was && u.expiry > now ==> u in ui)
    }

    lemma PruneStep(was: seq<UiVoice>, ui: seq<UiVoice>, i: nat, now: real)
      requires Pruned(was, ui, now) && i < |ui| && ui[i].expiry <= now
      ensures Pruned(was, SwapRemoved(ui, i), now)
    {
      var n := |ui| - 1;
      var less := SwapRemoved(ui, i);
      forall u | u in was && u.expiry > now ensures u in less {
        var j :| 0 <= j < |ui| && ui[j] == u;
        assert less[if j == n then i else j] == u;
      }
    }

    ghost predicate Fewer(was: map<Handle, real>, now: map<Handle, real>) {
      forall h :: h in now ==> h in was && now[h] == was[h]
    }

    /** Nothing but stops was asked for. */
    ghost predicate OnlyStops(was: seq<Call>, now: seq<Call>) {
      was <= now && forall i :: |was| <= i < |now| ==> now[i].Stopped?
    }

    /** Expired UI voices are removed and stopped, the others stay. */
    method Service(now: real)
      requires Valid()
      modifies this`ui, backend`live, backend`gains, backend`stopped, backend`log
      ensures Valid() && Pruned(old(ui), ui, now) && Fewer(old(backend.gains), backend.gains)
      ensures OnlyStops(old(backend.log), backend.log) && SameRequests(old(backend.log), backend.log)
      ensures forall u :: u in ui ==> u.expiry > now
    {
      hide StoppedOnce, Owns, UnderMark, Pruned, Fewer, OwnStreams, MirrorsStreams;
      var index := 0;
      assert Pruned(ui, ui, now) && Fewer(backend.gains, backend.gains) by { NothingPruned(ui, now, backend.gains); }
      while index < |ui|
        invariant 0 <= index <= |ui| && Valid()
        invariant forall j :: 0 <= j < index ==> ui[j].expiry > now
        invariant Pruned(old(ui), ui, now) && Fewer(old(backend.gains), backend.gains)
        invariant OnlyStops(old(backend.log), backend.log) && SameRequests(old(backend.log), backend.log)
        decreases |ui| - index
      {
        if ui[index].expiry <= now {
          PruneStep(old(ui), ui, index, now);
          FewerStep(old(backend.gains), backend.gains, ui[index].voice);
          StopUi(index);
        } else {
          index := index + 1;
        }
      }
    }

    lemma NothingPruned(ui: seq<UiVoice>, now: real, gains: map<Handle, real>)
      ensures Pruned(ui, ui, now) && Fewer(gains, gains)
    {
    }

    lemma FewerStep(was: map<Handle, real>, now: map<Handle, real>, h: Handle)
      requires Fewer(was, now)
      ensures Fewer(was, now - {h})
    {
    }

    function UiGain(layerGain: real, effects: real, gain: real): real {
      Clamp(Level(Level(Level(1.0, layerGain), effects), gain), 0.0, 4.0)
    }

    /** A one-shot's expiry: its longest layer from now. */
    function Expiry(cue: int, now: real): real {
      var d := MaxDuration(laws, cue);
      now + if d > 0.0 then d else 0.0
    }

    /** A UI voice lasts as long as its cue, and never less than no time. */
    lemma ExpiresWithTheCue(cue: int, now: real)
      ensures MaxDuration(laws, cue) >= 0.0 ==> Expiry(cue, now) == now + MaxDuration(laws, cue)
      ensures MaxDuration(laws, cue) <= 0.0 ==> Expiry(cue, now) == now
    {
      hide MaxDuration;
    }

    /** A UI layer is sent at the product of its gains, cut at four. */
    lemma UiLevelInFull(layerGain: real, effects: real, gain: real)
      requires layerGain >= 0.0 && effects >= 0.0 && gain >= 0.0
      ensures var heard := Level(Level(layerGain, effects), gain);
              UiGain(layerGain, effects, gain) == if heard <= 4.0 then heard else 4.0
    {
      UnitLevel(layerGain);
      hide Level;
      ProductIsPositive(layerGain, effects);
      ProductIsPositive(Level(layerGain, effects), gain);
    }

    function UiDraws(cue: int, id: nat): seq<LayerDraw> {
      DrawsOf(laws, cue, id)
    }

    predicate IsUi(cue: int) {
      ResponseOf(laws, cue).UiCue?
    }

    /** The entries for the layers that were granted a voice. */
    function UiEntries(grants: seq<Option<Handle>>, expiry: real): seq<UiVoice> {
      if grants == [] then []
      else
        var last := grants[|grants| - 1];
        UiEntries(grants[..|grants| - 1], expiry) + (if last.Some? then [UiVoice(last.value, expiry)] else [])
    }

    /** The requests for the layers of a UI cue, one for each. */
    function UiCalls(
      draws: seq<LayerDraw>, effects: real, gain: real, grants: seq<Option<Handle>>, id: nat): seq<Call>
      requires |grants| <= |draws|
    {
      seq(|grants|, i requires 0 <= i < |grants| =>
        PlayedClip(grants[i], draws[i].clip, UiGain(draws[i].gain, effects, gain), false, UiOf(id, i)))
    }

    /** One request for each layer, once through, with the layer's clip. */
    lemma UiCallsAreLayers(
      draws: seq<LayerDraw>, effects: real, gain: real, grants: seq<Option<Handle>>, id: nat, i: nat)
      requires i < |grants| <= |draws|
      ensures var c := UiCalls(draws, effects, gain, grants, id)[i];
              && c.PlayedClip? && c.granted == grants[i] && c.clip == draws[i].clip && !c.looped
              && c.origin == UiOf(id, i) && c.gain == UiGain(draws[i].gain, effects, gain)
    {
    }

    /** A UI one-shot, outside the budget: with a device each layer is asked for exactly once, and the
        voices granted are kept with the cue's expiry. `settled` is the log once the expired are stopped. */
    method PlayUi(cue: int, gain: real, now: real, later: real)
      returns (bad: bool, ghost kept: seq<UiVoice>, ghost settled: seq<Call>, ghost grants: seq<Option<Handle>>)
      requires Valid()
      modifies this`ui, this`uiCounter, backend
      ensures Valid() && backend.streams == old(backend.streams) && backend.feeds == old(backend.feeds)
      ensures bad <==> !IsUi(cue)
      ensures Pruned(old(ui), kept, later) && forall u :: u in kept ==> u.expiry > later
      ensures OnlyStops(old(backend.log), settled) && SameRequests(old(backend.log), settled)
      ensures ui == kept + UiEntries(grants, Expiry(cue, now)) && KeptGains(old(backend.gains), backend.gains)
      ensures bad || !backend.device.up ==>
        grants == [] && uiCounter == old(uiCounter) && backend.log == settled
      ensures !bad && backend.device.up ==>
        && uiCounter == (old(uiCounter) + 1) % 0x1_0000_0000_0000_0000
        && |grants| == |UiDraws(cue, old(uiCounter))|
        && backend.log == settled + UiCalls(UiDraws(cue, old(uiCounter)), mix.effects, gain, grants, old(uiCounter))
        && TunedUi(UiDraws(cue, old(uiCounter)), gain, grants)
    {
      hide StoppedOnce, Owns, UnderMark, Pruned, Fewer, OwnStreams, MirrorsStreams, OnlyStops, SameRequests, KeptGains;
      grants := [];
      ghost var next := backend.next;
      Service(later);
      kept, settled := ui, backend.log;
      ghost var gains := backend.gains;
      FewerIsKept(old(backend.gains), gains);
      bad := !IsUi(cue);
      if bad {
        return;
      }
      var alive := backend.Alive();
      if !alive {
        return;
      }
      var draws := UiDraws(cue, uiCounter);
      ghost var id := uiCounter;
      uiCounter := (uiCounter + 1) % 0x1_0000_0000_0000_0000;
      grants := SoundDraws(draws, gain, Expiry(cue, now), id);
      KeptThrough(old(backend.gains), gains, backend.gains, next);
    }

    lemma FewerIsKept(was: map<Handle, real>, now: map<Handle, real>)
      requires Fewer(was, now)
      ensures KeptGains(was, now)
    {
    }

    /** Handles are not reused, so what was stopped does not come back. */
    lemma KeptThrough(was: map<Handle, real>, mid: map<Handle, real>, now: map<Handle, real>, next: Handle)
      requires Fewer(was, mid) && KeptGains(mid, now) && (forall h :: h in was ==> h < next)
      requires forall h :: h in now && h !in mid ==> h >= next
      ensures KeptGains(was, now)
    {
    }

    /** Each granted layer plays at its level. */
    ghost predicate TunedUi(draws: seq<LayerDraw>, gain: real, grants: seq<Option<Handle>>)
      requires |grants| <= |draws|
      reads this, backend
    {
      forall i :: 0 <= i < |grants| && grants[i].Some? ==>
        grants[i].value in backend.gains && backend.gains[grants[i].value] == UiGain(draws[i].gain, mix.effects, gain)
    }

    /** Each layer is played; the granted voices are kept with the expiry. */
    method SoundDraws(draws: seq<LayerDraw>, gain: real, expiry: real, ghost id: nat)
      returns (ghost grants: seq<Option<Handle>>)
      requires Valid()
      modifies this`ui, backend
      ensures Valid() && backend.streams == old(backend.streams) && backend.feeds == old(backend.feeds)
      ensures |grants| == |draws| && ui == old(ui) + UiEntries(grants, expiry)
      ensures backend.log == old(backend.log) + UiCalls(draws, mix.effects, gain, grants, id)
      ensures TunedUi(draws, gain, grants)
      ensures KeptGains(old(backend.gains), backend.gains)
      ensures forall h :: h in backend.gains && h !in old(backend.gains) ==> h >= old(backend.next)
    {
      hide StoppedOnce, Owns, UnderMark, OwnStreams, MirrorsStreams, RequestsFor, UiGain, UiCalls, UiEntries;
      grants := [];
      NoUiYet(draws, mix.effects, gain, expiry, id);
      var i := 0;
      while i < |draws|
        invariant 0 <= i <= |draws| && i == |grants| && Valid()
        invariant backend.streams == old(backend.streams) && backend.feeds == old(backend.feeds)
        invariant ui == old(ui) + UiEntries(grants, expiry)
        invariant backend.log == old(backend.log) + UiCalls(draws, mix.effects, gain, grants, id)
        invariant TunedUi(draws, gain, grants)
        invariant forall h :: h in old(backend.gains) ==>
          h in backend.gains && backend.gains[h] == old(backend.gains)[h]
        invariant forall h :: h in backend.gains && h !in old(backend.gains) ==> h >= old(backend.next)
        invariant backend.next >= old(backend.next)
      {
        ghost var was, live := St(), backend.live;
        var v := backend.PlayClip(draws[i].clip, UiGain(draws[i].gain, mix.effects, gain), false, UiOf(id, i));
        if v.Some? {
          ui := ui + [UiVoice(v.value, expiry)];
          UiIn(was, UiVoice(v.value, expiry), St(), live);
        }
        OneMoreUi(draws, mix.effects, gain, grants, v, id, expiry);
        grants := grants + [v];
        i := i + 1;
      }
    }

    lemma NoUiYet(draws: seq<LayerDraw>, effects: real, gain: real, expiry: real, id: nat)
      ensures UiCalls(draws, effects, gain, [], id) == [] && UiEntries([], expiry) == []
    {
    }

    lemma OneMoreUi(
      draws: seq<LayerDraw>, effects: real, gain: real, grants: seq<Option<Handle>>, v: Option<Handle>, id: nat,
      expiry: real)
      requires |grants| < |draws|
      ensures UiEntries(grants + [v], expiry)
           == UiEntries(grants, expiry) + if v.Some? then [UiVoice(v.value, expiry)] else []
      ensures UiCalls(draws, effects, gain, grants + [v], id)
           == UiCalls(draws, effects, gain, grants, id)
              + [PlayedClip(v, draws[|grants|].clip, UiGain(draws[|grants|].gain, effects, gain), false,
                            UiOf(id, |grants|))]
    {
      hide UiGain;
      assert (grants + [v])[..|grants|] == grants;
    }

    /** Levels are normalized into the unit interval. */
    method SetMix(effects: real, voice: real, deafen: bool)
      requires Valid()
      modifies this`mix
      ensures Valid() && 0.0 <= mix.effects <= 1.0 && 0.0 <= mix.voice <= 1.0 && mix.deafen == deafen
      ensures 0.0 <= effects <= 1.0 ==> mix.effects == effects
      ensures 0.0 <= voice <= 1.0 ==> mix.voice == voice
    {
      mix := Mix(Clamp(effects, 0.0, 1.0), Clamp(voice, 0.0, 1.0), deafen);
    }

    // ----- world changes -----

    lemma NothingHeld(st: Stores, live: set<Handle>)
      requires Owns(st, live, {}) && st == Stores(map[], map[], map[], [])
      ensures live == {}
    {
      assert forall slot :: At(st, slot).None?;
      forall h: Handle ensures h !in live {
        assert !Held(st, h);
      }
    }

    method DropGroups()
      requires Valid()
      modifies this`clips, backend`live, backend`gains, backend`stopped, backend`log
      ensures Valid() && clips == map[] && SameRequests(old(backend.log), backend.log)
    {
      hide StoppedOnce, Owns, OwnStreams, MirrorsStreams;
      var todo := clips.Keys;
      while todo != {}
        invariant clips.Keys == todo && Valid() && SameRequests(old(backend.log), backend.log)
        decreases |todo|
      {
        var id :| id in todo;
        StopGroup(id);
        todo := todo - {id};
      }
    }

    method DropEmitters()
      requires Valid()
      modifies this`emitters, backend`live, backend`gains, backend`stopped, backend`log
      ensures Valid() && emitters == map[] && SameRequests(old(backend.log), backend.log)
    {
      hide StoppedOnce, Owns, OwnStreams, MirrorsStreams, UnderMark;
      var todo := emitters.Keys;
      while todo != {}
        invariant emitters.Keys == todo && Valid() && SameRequests(old(backend.log), backend.log)
        decreases |todo|
      {
        var id :| id in todo;
        StopEmitter(id);
        todo := todo - {id};
      }
    }

    method DropSessions()
      requires Valid()
      modifies this`sessions, this`starved, backend`live, backend`gains, backend`stopped, backend`log
      ensures Valid() && sessions == map[] && SameRequests(old(backend.log), backend.log)
    {
      hide Valid;
      var todo := sessions.Keys;
      while todo != {}
        invariant sessions.Keys == todo && Valid() && SameRequests(old(backend.log), backend.log)
        decreases |todo|
      {
        var key :| key in todo;
        DropSession(key);
        todo := todo - {key};
      }
    }

    method DropUi()
      requires Valid()
      modifies this`ui, backend`live, backend`gains, backend`stopped, backend`log
      ensures Valid() && ui == [] && SameRequests(old(backend.log), backend.log)
    {
      hide StoppedOnce, Owns, OwnStreams, MirrorsStreams, UnderMark;
      while ui != []
        invariant Valid() && SameRequests(old(backend.log), backend.log)
        decreases |ui|
      {
        StopUi(0);
      }
    }

    /** Everything world-scoped goes: no voice outlives the world. */
    method EnterWorld()
      requires Valid()
      modifies this`clips, this`emitters, this`sessions, this`starved, this`ui, this`mark, backend`live,
        backend`gains, backend`stopped, backend`log
      ensures Valid() && St() == Stores(map[], map[], map[], []) && mark.None? && starved == map[]
      ensures backend.live == {} && SameRequests(old(backend.log), backend.log)
    {
      hide StoppedOnce, Owns, RequestsFor;
      DropGroups();
      DropEmitters();
      DropSessions();
      DropUi();
      mark := None;
      starved := map[];
      NothingHeld(St(), backend.live);
    }

    method DropSession(key: nat)
      requires Valid() && key in sessions
      modifies this`sessions, this`starved, backend`live, backend`gains, backend`stopped, backend`log
      ensures Valid() && sessions == old(sessions) - {key} && SameRequests(old(backend.log), backend.log)
    {
      hide StoppedOnce, Owns, UnderMark;
      if sessions[key].Streaming? {
        StopStream(key);
      } else {
        ghost var was := St();
        sessions := sessions - {key};
        QuietKeyRemoved(was, key, St(), backend.live);
      }
    }
  }
}