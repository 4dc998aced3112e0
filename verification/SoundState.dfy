/** The mixer's stores, and who owns each backend voice. */
module SoundState {
  import opened Common
  import opened Voice

  type Handle = nat

  /** Places and the listener are opaque here: the trace between them is a parameter. */
  type Position = int
  datatype Listener = Listener(pos: Position, heading: int)

  datatype Coords = Coords(distance: real, occlusion: real)

  /** A smoothing cell; the first observation initialises it directly. */
  datatype Smooth = Smooth(distance: real, occlusion: real, init: bool)

  datatype Response = WorldCue | UiCue | AmbientCue | VoiceCue

  datatype LayerDraw = LayerDraw(clip: int, gain: real, rate: real, delay: real)

  datatype LayerState = Pending(draw: LayerDraw) | Sounding(voice: Handle, gain: real) | Done

  datatype Group = Group(
    cue: int, at: Option<Position>, gain: real, smooth: Smooth, layers: seq<LayerState>, age: real, won: bool)

  datatype EmitterLayer = EmitterLayer(draw: LayerDraw, voice: Option<Handle>)

  datatype EmitterVoice = EmitterVoice(
    cue: int, at: Position, gain: real, smooth: Smooth, age: real, layers: seq<EmitterLayer>, won: bool)

  datatype Session =
    | Streaming(epoch: nat, voice: Handle, present: bool, lastAt: Option<Position>, smooth: Smooth, won: bool)
    | Tombstone(epoch: nat)

  datatype UiVoice = UiVoice(voice: Handle, expiry: real)

  /** The four stores that hold backend voices. */
  datatype Stores = Stores(
    clips: map<nat, Group>, emitters: map<nat, EmitterVoice>, sessions: map<nat, Session>, ui: seq<UiVoice>)

  // ----- ownership -----

  /** A place that can hold a backend voice. */
  datatype Slot =
    | ClipSlot(id: nat, layer: nat)
    | EmitterSlot(id: nat, layer: nat)
    | SessionSlot(key: nat)
    | UiSlot(handle: Handle)

  function LayerVoice(l: LayerState): Option<Handle> {
    match l
    case Sounding(v, _) => Some(v)
    case _ => None
  }

  predicate UiHolds(ui: seq<UiVoice>, h: Handle) {
    exists i :: 0 <= i < |ui| && ui[i].voice == h
  }

  function At(st: Stores, slot: Slot): Option<Handle> {
    match slot
    case ClipSlot(id, i) =>
      if id in st.clips && i < |st.clips[id].layers| then LayerVoice(st.clips[id].layers[i]) else None
    case EmitterSlot(id, i) =>
      if id in st.emitters && i < |st.emitters[id].layers| then st.emitters[id].layers[i].voice else None
    case SessionSlot(key) =>
      if key in st.sessions && st.sessions[key].Streaming? then Some(st.sessions[key].voice) else None
    case UiSlot(h) =>
      if UiHolds(st.ui, h) then Some(h) else None
  }

  ghost predicate DistinctUi(ui: seq<UiVoice>) {
    forall i, j :: 0 <= i < j < |ui| ==> ui[i].voice != ui[j].voice
  }

  ghost predicate Held(st: Stores, h: Handle) {
    exists slot :: At(st, slot) == Some(h)
  }

  /** Every live voice but the `loose` ones is held in exactly one slot, every held voice is live. */
  ghost predicate Owns(st: Stores, live: set<Handle>, loose: set<Handle>) {
    && loose <= live
    && DistinctUi(st.ui)
    && (forall slot :: At(st, slot).Some? ==> At(st, slot).value in live && At(st, slot).value !in loose)
    && (forall s, t :: At(st, s).Some? && At(st, s) == At(st, t) ==> s == t)
    && (forall h :: h in live && h !in loose ==> Held(st, h))
  }

  /** `to` is `from` but for what slot `at` holds. */
  ghost predicate OneSlot(from: Stores, to: Stores, at: Slot, v: Option<Handle>) {
    DistinctUi(to.ui) && forall slot :: At(to, slot) == if slot == at then v else At(from, slot)
  }

  ghost predicate SameSlots(from: Stores, to: Stores) {
    DistinctUi(to.ui) && forall slot :: At(to, slot) == At(from, slot)
  }

  lemma Keep(from: Stores, to: Stores, live: set<Handle>, loose: set<Handle>)
    requires Owns(from, live, loose) && SameSlots(from, to)
    ensures Owns(to, live, loose)
  {
    forall h | h in live && h !in loose ensures Held(to, h) {
      assert Held(from, h);
      var slot :| At(from, slot) == Some(h);
      assert At(to, slot) == Some(h);
    }
  }

  /** A loose voice is put into an empty slot. */
  lemma PutIn(from: Stores, to: Stores, at: Slot, h: Handle, live: set<Handle>, loose: set<Handle>)
    requires Owns(from, live, loose) && h in loose && At(from, at).None? && OneSlot(from, to, at, Some(h))
    ensures Owns(to, live, loose - {h})
  {
    forall k | k in live && k !in loose - {h} ensures Held(to, k) {
      if k == h {
        assert At(to, at) == Some(h);
      } else {
        assert Held(from, k);
        var slot :| At(from, slot) == Some(k);
        assert At(to, slot) == Some(k);
      }
    }
  }

  /** A voice is taken out of its slot. */
  lemma TakeOut(from: Stores, to: Stores, at: Slot, h: Handle, live: set<Handle>, loose: set<Handle>)
    requires Owns(from, live, loose) && At(from, at) == Some(h) && OneSlot(from, to, at, None)
    ensures Owns(to, live, loose + {h})
  {
    forall k | k in live && k !in loose + {h} ensures Held(to, k) {
      assert Held(from, k);
      var slot :| At(from, slot) == Some(k);
      assert At(to, slot) == Some(k);
    }
  }

  /** A new voice starts loose, and only a loose one is stopped. */
  lemma Opened(st: Stores, live: set<Handle>, loose: set<Handle>, h: Handle)
    requires Owns(st, live, loose) && h !in live
    ensures Owns(st, live + {h}, loose + {h})
  {
  }

  lemma Closed(st: Stores, live: set<Handle>, loose: set<Handle>, h: Handle)
    requires Owns(st, live, loose) && h in loose
    ensures Owns(st, live - {h}, loose - {h})
  {
  }

  // ----- how updates of the stores look to the slots -----

  lemma ClipLayerSet(st: Stores, id: nat, i: nat, l: LayerState, to: Stores)
    requires id in st.clips && i < |st.clips[id].layers| && DistinctUi(st.ui)
    requires to == st.(clips := st.clips[id := st.clips[id].(layers := st.clips[id].layers[i := l])])
    ensures OneSlot(st, to, ClipSlot(id, i), LayerVoice(l))
  {
  }

  lemma EmitterLayerSet(st: Stores, id: nat, i: nat, v: Option<Handle>, to: Stores)
    requires id in st.emitters && i < |st.emitters[id].layers| && DistinctUi(st.ui)
    requires var e := st.emitters[id];
             to == st.(emitters := st.emitters[id := e.(layers := e.layers[i := e.layers[i].(voice := v)])])
    ensures OneSlot(st, to, EmitterSlot(id, i), v)
  {
  }

  lemma SessionSet(st: Stores, key: nat, s: Session, to: Stores)
    requires to == st.(sessions := st.sessions[key := s]) && DistinctUi(st.ui)
    ensures OneSlot(st, to, SessionSlot(key), if s.Streaming? then Some(s.voice) else None)
  {
  }

  lemma SessionRemoved(st: Stores, key: nat, to: Stores)
    requires to == st.(sessions := st.sessions - {key}) && DistinctUi(st.ui)
    ensures OneSlot(st, to, SessionSlot(key), None)
  {
  }

  lemma UiPushed(st: Stores, v: UiVoice, to: Stores)
    requires to == st.(ui := st.ui + [v]) && DistinctUi(st.ui) && !UiHolds(st.ui, v.voice)
    ensures OneSlot(st, to, UiSlot(v.voice), Some(v.voice))
  {
    forall h ensures UiHolds(to.ui, h) <==> UiHolds(st.ui, h) || h == v.voice {
      if UiHolds(st.ui, h) {
        var i :| 0 <= i < |st.ui| && st.ui[i].voice == h;
        assert to.ui[i].voice == h;
      }
      assert to.ui[|st.ui|] == v;
    }
  }

  function SwapRemoved(ui: seq<UiVoice>, i: nat): seq<UiVoice>
    requires i < |ui|
  {
    ui[i := ui[|ui| - 1]][..|ui| - 1]
  }

  lemma UiRemoved(st: Stores, i: nat, to: Stores)
    requires i < |st.ui| && DistinctUi(st.ui) && to == st.(ui := SwapRemoved(st.ui, i))
    ensures OneSlot(st, to, UiSlot(st.ui[i].voice), None)
  {
    var n := |st.ui| - 1;
    forall h ensures UiHolds(to.ui, h) <==> UiHolds(st.ui, h) && h != st.ui[i].voice {
      if UiHolds(st.ui, h) && h != st.ui[i].voice {
        var j :| 0 <= j < |st.ui| && st.ui[j].voice == h;
        assert to.ui[if j == n then i else j].voice == h;
      }
      if UiHolds(to.ui, h) {
        var j :| 0 <= j < |to.ui| && to.ui[j].voice == h;
        assert st.ui[if j == i then n else j].voice == h;
      }
    }
  }

  /** A group without voices may come or go. */
  predicate Silent(g: Group) {
    forall i :: 0 <= i < |g.layers| ==> !g.layers[i].Sounding?
  }

  predicate Mute(e: EmitterVoice) {
    forall i :: 0 <= i < |e.layers| ==> e.layers[i].voice.None?
  }

  lemma SilentGroupAdded(st: Stores, id: nat, g: Group, to: Stores)
    requires Silent(g) && (id in st.clips ==> Silent(st.clips[id])) && DistinctUi(st.ui)
    requires to == st.(clips := st.clips[id := g])
    ensures SameSlots(st, to)
  {
  }

  lemma MuteEmitterAdded(st: Stores, id: nat, e: EmitterVoice, to: Stores)
    requires Mute(e) && id !in st.emitters && DistinctUi(st.ui)
    requires to == st.(emitters := st.emitters[id := e])
    ensures SameSlots(st, to)
  {
  }

}
