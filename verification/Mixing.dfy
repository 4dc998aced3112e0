/** What one mixer frame does to the stores, as functions and relations on their values. */
module Mixing {
  import opened Common
  import opened Voice
  import opened SoundState
  import Ranking

  datatype Occurrence = Occurrence(id: nat, cue: int, at: Option<Position>, gain: real)

  datatype Emitter = Emitter(id: nat, cue: int, at: Position, gain: real)

  datatype Window = Window(trace: (Listener, Position) -> Coords)

  datatype Mix = Mix(effects: real, voice: real, deafen: bool)

  /** The catalog, the response curves and the mixer's configuration. */
  datatype Laws = Laws(
    layers: (int, nat) -> seq<LayerDraw>,
    maxDuration: int -> real,
    response: int -> Response,
    peak: int -> real,
    base: (Response, real, real) -> real,
    factor: real -> real,
    maxVoices: nat)

  function DrawsOf(laws: Laws, cue: int, id: nat): seq<LayerDraw> {
    laws.layers(cue, id)
  }

  function ResponseOf(laws: Laws, cue: int): Response {
    laws.response(cue)
  }

  /** The loudest gain any layer of the cue may draw. */
  function PeakOf(laws: Laws, cue: int): real {
    laws.peak(cue)
  }

  const EMITTER_DRAW_BIT := 0x400_0000_0000_0000

  /** The draw id of an emitter: its id with one reserved bit flipped. */
  function Salted(id: nat): nat {
    if (id / EMITTER_DRAW_BIT) % 2 == 0 then id + EMITTER_DRAW_BIT else id - EMITTER_DRAW_BIT
  }

  // ----- gains -----

  function Clamp(x: real, lo: real, hi: real): real {
    if x < lo then lo else if x > hi then hi else x
  }

  function SpatialBase(laws: Laws, r: Response, s: Smooth): real {
    if r.UiCue? then 1.0 else laws.base(r, s.distance, s.occlusion)
  }

  function Respond(laws: Laws, r: Response, s: Smooth): real {
    if r.UiCue? then 1.0 else Clamp(SpatialBase(laws, r, s), 0.0, 1.0)
  }

  /** A product of gains. */
  function Level(gain: real, layer: real): real {
    gain * layer
  }

  /** The level sent to the device: the response, the authored gain and the bus, clamped. */
  function Applied(d: real, authored: real, bus: real): real {
    Clamp(Level(Level(d, authored), bus), 0.0, 4.0)
  }

  function DspGain(laws: Laws, r: Response, s: Smooth, authored: real, bus: real): real {
    Applied(Respond(laws, r, s), authored, bus)
  }

  function Audibility(laws: Laws, r: Response, s: Smooth, gain: real): real {
    Level(SpatialBase(laws, r, s), gain)
  }

  /** Audibility bounds the level applied to any layer authored no louder than the group's loudest. */
  lemma AudibilityBoundsGain(laws: Laws, r: Response, s: Smooth, gain: real, layer: real, peak: real, bus: real)
    requires SpatialBase(laws, r, s) >= 0.0 && gain >= 0.0 && 0.0 <= layer <= peak && 0.0 <= bus <= 1.0
    ensures DspGain(laws, r, s, Level(gain, layer), bus) <= Audibility(laws, r, s, Level(gain, peak))
  {
    hide Audibility, DspGain, SpatialBase;
    Scaled(gain, layer, peak);
    DspBelow(laws, r, s, Level(gain, layer), Level(gain, peak), bus);
  }

  lemma DspBelow(laws: Laws, r: Response, s: Smooth, authored: real, most: real, bus: real)
    requires SpatialBase(laws, r, s) >= 0.0 && 0.0 <= authored <= most && 0.0 <= bus <= 1.0
    ensures DspGain(laws, r, s, authored, bus) <= Audibility(laws, r, s, most)
  {
    RespondBelow(laws, r, s);
    hide Respond, SpatialBase, Applied, Level;
    AppliedBelow(SpatialBase(laws, r, s), Respond(laws, r, s), authored, most, bus);
  }

  /** Clamping only lowers a spatial level. */
  lemma RespondBelow(laws: Laws, r: Response, s: Smooth)
    requires SpatialBase(laws, r, s) >= 0.0
    ensures 0.0 <= Respond(laws, r, s) <= SpatialBase(laws, r, s)
  {
  }

  lemma AppliedBelow(b: real, d: real, authored: real, most: real, bus: real)
    requires 0.0 <= d <= b && 0.0 <= authored <= most && 0.0 <= bus <= 1.0
    ensures Applied(d, authored, bus) <= Level(b, most)
  {
    hide Level;
    LevelBelow(d, b, authored, most);
    LevelShrinks(Level(d, authored), bus, Level(b, most));
  }

  lemma LevelBelow(d: real, b: real, authored: real, most: real)
    requires 0.0 <= d <= b && 0.0 <= authored <= most
    ensures 0.0 <= Level(d, authored) <= Level(b, most)
  {
    Scaled(d, authored, most);
    ScaledLeft(d, b, most);
  }

  lemma LevelShrinks(x: real, t: real, bound: real)
    requires 0.0 <= x <= bound && 0.0 <= t <= 1.0
    ensures 0.0 <= Level(x, t) <= bound
  {
    Shrunk(x, t, bound);
  }

  lemma Scaled(k: real, a: real, b: real)
    requires k >= 0.0 && 0.0 <= a <= b
    ensures 0.0 <= k * a <= k * b
  {
  }

  lemma ScaledLeft(a: real, b: real, k: real)
    requires k >= 0.0 && 0.0 <= a <= b
    ensures a * k <= b * k
  {
  }

  lemma Shrunk(x: real, t: real, bound: real)
    requires 0.0 <= x <= bound && 0.0 <= t <= 1.0
    ensures 0.0 <= x * t <= bound
  {
  }

  // ----- new occurrences -----

  function Unheard(): Smooth {
    Smooth(0.0, 0.0, false)
  }

  function Newborn(laws: Laws, o: Occurrence): Group {
    var draws := DrawsOf(laws, o.cue, o.id);
    Group(o.cue, o.at, o.gain, Unheard(), seq(|draws|, i requires 0 <= i < |draws| => Pending(draws[i])), 0.0, false)
  }

  /** Beyond the high-water mark: not realized before. */
  predicate Fresh(mark: Option<nat>, id: nat) {
    mark.None? || id > mark.value
  }

  function Raised(mark: Option<nat>, id: nat): Option<nat> {
    if mark.Some? && mark.value >= id then mark else Some(id)
  }

  function Highest(mark: Option<nat>, occs: seq<Occurrence>): Option<nat> {
    if occs == [] then mark else Raised(Highest(mark, occs[..|occs| - 1]), occs[|occs| - 1].id)
  }

  /** The clip groups with those of the fresh occurrences added. */
  function Realized(laws: Laws, clips: map<nat, Group>, mark: Option<nat>, occs: seq<Occurrence>): map<nat, Group> {
    if occs == [] then clips
    else
      var o := occs[|occs| - 1];
      var rest := Realized(laws, clips, mark, occs[..|occs| - 1]);
      if Fresh(mark, o.id) then rest[o.id := Newborn(laws, o)] else rest
  }

  /** The ids realized, counted. */
  function FreshIds(mark: Option<nat>, occs: seq<Occurrence>): multiset<nat> {
    if occs == [] then multiset{}
    else
      var o := occs[|occs| - 1];
      FreshIds(mark, occs[..|occs| - 1]) + (if Fresh(mark, o.id) then multiset{o.id} else multiset{})
  }

  /** One more occurrence, for all three at once. */
  lemma OneMore(laws: Laws, clips: map<nat, Group>, mark: Option<nat>, occs: seq<Occurrence>, i: nat)
    requires i < |occs|
    ensures var o, rest := occs[i], Realized(laws, clips, mark, occs[..i]);
            Realized(laws, clips, mark, occs[..i + 1])
            == if Fresh(mark, o.id) then rest[o.id := Newborn(laws, o)] else rest
    ensures Highest(mark, occs[..i + 1]) == Raised(Highest(mark, occs[..i]), occs[i].id)
    ensures FreshIds(mark, occs[..i + 1])
         == FreshIds(mark, occs[..i]) + if Fresh(mark, occs[i].id) then multiset{occs[i].id} else multiset{}
  {
    assert occs[..i + 1][..i] == occs[..i];
  }

  ghost predicate Increasing(occs: seq<Occurrence>) {
    forall i, j :: 0 <= i < j < |occs| ==> occs[i].id < occs[j].id
  }

  function Grown(clips: map<nat, Group>, dt: real): map<nat, Group> {
    map id | id in clips :: clips[id].(age := clips[id].age + dt)
  }

  function GrownEmitters(emitters: map<nat, EmitterVoice>, dt: real): map<nat, EmitterVoice> {
    map id | id in emitters :: emitters[id].(age := emitters[id].age + dt)
  }

  // ----- the emitter table -----

  function FindEmitter(table: seq<Emitter>, id: nat): Option<Emitter> {
    if table == [] then None else if table[0].id == id then Some(table[0]) else FindEmitter(table[1..], id)
  }

  function NewEmitter(laws: Laws, e: Emitter): EmitterVoice {
    var draws := DrawsOf(laws, e.cue, Salted(e.id));
    EmitterVoice(e.cue, e.at, e.gain, Unheard(), 0.0,
                 seq(|draws|, i requires 0 <= i < |draws| => EmitterLayer(draws[i], None)), false)
  }

  /** An emitter is kept when the table still lists its id with its cue. */
  predicate Tabled(table: seq<Emitter>, id: nat, cue: int) {
    FindEmitter(table, id).Some? && FindEmitter(table, id).value.cue == cue
  }

  function TableIds(table: seq<Emitter>): set<nat> {
    set i | 0 <= i < |table| :: table[i].id
  }

  lemma {:induction false} FindsTabled(table: seq<Emitter>, id: nat)
    ensures FindEmitter(table, id).Some? <==> id in TableIds(table)
    ensures FindEmitter(table, id).Some? ==> FindEmitter(table, id).value.id == id
  {
    if table != [] {
      FindsTabled(table[1..], id);
      assert TableIds(table) == {table[0].id} + TableIds(table[1..]) by {
        forall x | x in TableIds(table) ensures x in {table[0].id} + TableIds(table[1..]) {
          var i :| 0 <= i < |table| && table[i].id == x;
          assert i > 0 ==> table[1..][i - 1].id == x;
        }
        forall x | x in TableIds(table[1..]) ensures x in TableIds(table) {
          var i :| 0 <= i < |table[1..]| && table[1..][i].id == x;
          assert table[i + 1].id == x;
        }
      }
    }
  }

  /** An emitter listed in the table: kept with the table's place and gain, or new. */
  function Placed(laws: Laws, was: map<nat, EmitterVoice>, e: Emitter): EmitterVoice {
    if e.id in was && was[e.id].cue == e.cue then was[e.id].(at := e.at, gain := e.gain) else NewEmitter(laws, e)
  }

  /** The emitters a table leaves: exactly those it lists. */
  function Reconciled(laws: Laws, was: map<nat, EmitterVoice>, table: seq<Emitter>): map<nat, EmitterVoice> {
    map id | id in TableIds(table) && FindEmitter(table, id).Some? :: Placed(laws, was, FindEmitter(table, id).value)
  }

  // ----- observing and ranking -----

  function RawCoords(w: Window, listener: Listener, at: Option<Position>): Coords {
    match at
    case Some(p) => w.trace(listener, p)
    case None => Coords(0.0, 0.0)
  }

  /** The first observation initialises, later ones move part of the way. */
  function Observe(s: Smooth, raw: Coords, k: real): Smooth {
    if !s.init then Smooth(raw.distance, raw.occlusion, true)
    else Smooth(s.distance + (raw.distance - s.distance) * k, s.occlusion + (raw.occlusion - s.occlusion) * k, true)
  }

  function ObservedGroup(g: Group, w: Window, listener: Listener, k: real): Group {
    g.(won := false, smooth := Observe(g.smooth, RawCoords(w, listener, g.at), k))
  }

  function ObservedEmitter(e: EmitterVoice, w: Window, listener: Listener, k: real): EmitterVoice {
    e.(won := false, smooth := Observe(e.smooth, RawCoords(w, listener, Some(e.at)), k))
  }

  function ObservedSession(s: Session, w: Window, listener: Listener, k: real): Session {
    match s
    case Tombstone(_) => s
    case Streaming(_, _, present, lastAt, smooth, _) =>
      if present then s.(won := false, smooth := Observe(smooth, RawCoords(w, listener, lastAt), k))
      else s.(won := false)
  }

  function Observed(st: Stores, w: Window, listener: Listener, k: real): Stores {
    Stores(map id | id in st.clips :: ObservedGroup(st.clips[id], w, listener, k),
           map id | id in st.emitters :: ObservedEmitter(st.emitters[id], w, listener, k),
           map id | id in st.sessions :: ObservedSession(st.sessions[id], w, listener, k),
           st.ui)
  }

  /** The voices a group will hold: layers that are done hold none. */
  function HeldLayers(layers: seq<LayerState>): nat {
    if layers == [] then 0
    else HeldLayers(layers[..|layers| - 1]) + (if layers[|layers| - 1].Done? then 0 else 1)
  }

  function PeakDraw(layers: seq<EmitterLayer>): real {
    if layers == [] then 0.0
    else
      var rest := PeakDraw(layers[..|layers| - 1]);
      if layers[|layers| - 1].draw.gain > rest then layers[|layers| - 1].draw.gain else rest
  }

  function ClipCandidate(laws: Laws, id: nat, g: Group): Ranking.Candidate {
    Ranking.Candidate(Audibility(laws, ResponseOf(laws, g.cue), g.smooth, Level(g.gain, PeakOf(laws, g.cue))),
                      Ranking.Clip(id), HeldLayers(g.layers))
  }

  function EmitterCandidate(laws: Laws, id: nat, e: EmitterVoice): Ranking.Candidate {
    Ranking.Candidate(Audibility(laws, ResponseOf(laws, e.cue), e.smooth, Level(e.gain, PeakDraw(e.layers))),
                      Ranking.Emitter(id), |e.layers|)
  }

  function VoiceCandidate(laws: Laws, key: nat, s: Session): Ranking.Candidate
    requires s.Streaming?
  {
    Ranking.Candidate(Audibility(laws, VoiceCue, s.smooth, 1.0), Ranking.Voice(key), 1)
  }

  predicate Heard(sessions: map<nat, Session>, key: nat) {
    key in sessions && sessions[key].Streaming? && sessions[key].present
  }

  /** Whether a group stands for the budget at all. */
  predicate Stands(st: Stores, key: Ranking.GroupKey) {
    match key
    case Clip(id) => id in st.clips
    case Emitter(id) => id in st.emitters
    case Voice(id) => Heard(st.sessions, id)
  }

  function CandidateOf(laws: Laws, st: Stores, key: Ranking.GroupKey): Ranking.Candidate
    requires Stands(st, key)
  {
    match key
    case Clip(id) => ClipCandidate(laws, id, st.clips[id])
    case Emitter(id) => EmitterCandidate(laws, id, st.emitters[id])
    case Voice(id) => VoiceCandidate(laws, id, st.sessions[id])
  }

  predicate Listed(cands: seq<Ranking.Candidate>, key: Ranking.GroupKey) {
    exists i :: 0 <= i < |cands| && cands[i].key == key
  }

  /** Some listing of all candidates, each once. */
  ghost predicate Lists(laws: Laws, st: Stores, cands: seq<Ranking.Candidate>) {
    && Ranking.DistinctKeys(cands)
    && (forall i :: 0 <= i < |cands| ==> Stands(st, cands[i].key) && cands[i] == CandidateOf(laws, st, cands[i].key))
    && (forall key :: Stands(st, key) ==> Listed(cands, key))
  }

  /** A listing of the candidates among `keys`. */
  ghost predicate ListsSome(laws: Laws, st: Stores, cands: seq<Ranking.Candidate>, keys: iset<Ranking.GroupKey>) {
    && Ranking.DistinctKeys(cands)
    && (forall i :: 0 <= i < |cands| ==>
          Stands(st, cands[i].key) && cands[i].key in keys && cands[i] == CandidateOf(laws, st, cands[i].key))
    && (forall key :: key in keys && Stands(st, key) ==> Listed(cands, key))
  }

  lemma ListsMore(
    laws: Laws, st: Stores, cands: seq<Ranking.Candidate>, keys: iset<Ranking.GroupKey>, c: Ranking.Candidate)
    requires ListsSome(laws, st, cands, keys) && c.key !in keys
    requires Stands(st, c.key) && c == CandidateOf(laws, st, c.key)
    ensures ListsSome(laws, st, cands + [c], keys + iset{c.key})
  {
    hide Stands, CandidateOf;
    var more := cands + [c];
    forall key | key in keys + iset{c.key} && Stands(st, key) ensures Listed(more, key) {
      if key in keys {
        var i :| 0 <= i < |cands| && cands[i].key == key;
        assert more[i].key == key;
      } else {
        assert more[|cands|].key == key;
      }
    }
  }

  /** The stores with exactly the groups of `won` marked. */
  function Marked(st: Stores, won: set<Ranking.GroupKey>): Stores {
    st.(clips := map id | id in st.clips :: st.clips[id].(won := Ranking.Clip(id) in won),
        emitters := map id | id in st.emitters :: st.emitters[id].(won := Ranking.Emitter(id) in won),
        sessions := map id | id in st.sessions ::
          if st.sessions[id].Streaming? then st.sessions[id].(won := Ranking.Voice(id) in won) else st.sessions[id])
  }

  lemma ObservedIsUnmarked(st: Stores, w: Window, listener: Listener, k: real)
    ensures Marked(Observed(st, w, listener, k), {}) == Observed(st, w, listener, k)
  {
    hide Observe;
  }

  /** The stores with one more winner. */
  function MarkedOne(st: Stores, key: Ranking.GroupKey): Stores
    requires Stands(st, key)
  {
    match key
    case Clip(id) => st.(clips := st.clips[id := st.clips[id].(won := true)])
    case Emitter(id) => st.(emitters := st.emitters[id := st.emitters[id].(won := true)])
    case Voice(id) => st.(sessions := st.sessions[id := st.sessions[id].(won := true)])
  }

  lemma MarkedMore(st: Stores, won: set<Ranking.GroupKey>, key: Ranking.GroupKey)
    requires Stands(st, key)
    ensures Stands(Marked(st, won), key)
    ensures MarkedOne(Marked(st, won), key) == Marked(st, won + {key})
  {
    var a, b := MarkedOne(Marked(st, won), key), Marked(st, won + {key});
    assert a.clips == b.clips;
    assert a.emitters == b.emitters;
    assert a.sessions == b.sessions;
  }

  /** Two listings of the same candidates have the same winners. */
  lemma WinnersAreDetermined(laws: Laws, st: Stores, a: seq<Ranking.Candidate>, b: seq<Ranking.Candidate>)
    requires Lists(laws, st, a) && Lists(laws, st, b)
    ensures Ranking.Winners(a, laws.maxVoices) == Ranking.Winners(b, laws.maxVoices)
  {
    forall c ensures multiset(a)[c] == multiset(b)[c] {
      ListedOnce(laws, st, a, c);
      ListedOnce(laws, st, b, c);
    }
    assert multiset(a) == multiset(b);
    Ranking.WinnersIgnoreOrder(a, b, laws.maxVoices);
  }

  lemma ListedOnce(laws: Laws, st: Stores, cands: seq<Ranking.Candidate>, c: Ranking.Candidate)
    requires Lists(laws, st, cands)
    ensures multiset(cands)[c] == if Stands(st, c.key) && c == CandidateOf(laws, st, c.key) then 1 else 0
  {
    hide CandidateOf, Stands;
    if c in cands {
      CountedOnce(cands, c);
    } else {
      assert c !in multiset(cands);
    }
    if Stands(st, c.key) && c == CandidateOf(laws, st, c.key) {
      assert Listed(cands, c.key);
      var i :| 0 <= i < |cands| && cands[i].key == c.key;
      assert cands[i] == c;
    }
  }

  lemma {:induction false} CountedOnce(cands: seq<Ranking.Candidate>, c: Ranking.Candidate)
    requires Ranking.DistinctKeys(cands) && c in cands
    ensures multiset(cands)[c] == 1
  {
    var n := |cands| - 1;
    assert cands == cands[..n] + [cands[n]];
    if cands[n] == c {
      assert c !in multiset(cands[..n]);
    } else {
      CountedOnce(cands[..n], c);
    }
  }

  // ----- who is heard -----

  /** The mark a ranking left on a source. */
  predicate Won(st: Stores, key: Ranking.GroupKey)
    requires Stands(st, key)
  {
    match key
    case Clip(id) => st.clips[id].won
    case Emitter(id) => st.emitters[id].won
    case Voice(id) => st.sessions[id].won
  }

  /** Louder; or as loud, and a clip before an emitter before a voice, and of one kind the smaller id. */
  predicate Outranks(a: Ranking.Candidate, b: Ranking.Candidate) {
    || a.audibility > b.audibility
    || (a.audibility == b.audibility
        && (|| (a.key.Clip? && !b.key.Clip?)
            || (a.key.Emitter? && b.key.Voice?)
            || (a.key.Clip? == b.key.Clip? && a.key.Emitter? == b.key.Emitter? && a.key.id < b.key.id)))
  }

  /** No source is heard while one that outranks it, and asks for no more voices, is not. */
  ghost predicate LouderAreHeard(laws: Laws, st: Stores) {
    forall a, b ::
      && Stands(st, a) && Stands(st, b) && Outranks(CandidateOf(laws, st, a), CandidateOf(laws, st, b))
      && CandidateOf(laws, st, a).cost <= CandidateOf(laws, st, b).cost && Won(st, b)
      ==> Won(st, a)
  }

  lemma MarkedCandidate(laws: Laws, st: Stores, won: set<Ranking.GroupKey>, key: Ranking.GroupKey)
    ensures Stands(Marked(st, won), key) <==> Stands(st, key)
    ensures Stands(st, key) ==>
      && CandidateOf(laws, Marked(st, won), key) == CandidateOf(laws, st, key)
      && (Won(Marked(st, won), key) <==> key in won)
  {
  }

  lemma WinnersAreLouder(laws: Laws, st: Stores, cands: seq<Ranking.Candidate>)
    requires Lists(laws, st, cands)
    ensures LouderAreHeard(laws, Marked(st, Ranking.Winners(cands, laws.maxVoices)))
  {
    var won := Ranking.Winners(cands, laws.maxVoices);
    var now := Marked(st, won);
    hide Stands, CandidateOf, Marked, Won;
    forall a, b |
      && Stands(now, a) && Stands(now, b) && Outranks(CandidateOf(laws, now, a), CandidateOf(laws, now, b))
      && CandidateOf(laws, now, a).cost <= CandidateOf(laws, now, b).cost && Won(now, b)
      ensures Won(now, a)
    {
      MarkedCandidate(laws, st, won, a);
      MarkedCandidate(laws, st, won, b);
      OutrankingWins(laws, st, cands, a, b);
    }
  }

  lemma OutrankingWins(
    laws: Laws, st: Stores, cands: seq<Ranking.Candidate>, a: Ranking.GroupKey, b: Ranking.GroupKey)
    requires Lists(laws, st, cands) && Stands(st, a) && Stands(st, b)
    requires Outranks(CandidateOf(laws, st, a), CandidateOf(laws, st, b))
    requires CandidateOf(laws, st, a).cost <= CandidateOf(laws, st, b).cost
    requires b in Ranking.Winners(cands, laws.maxVoices)
    ensures a in Ranking.Winners(cands, laws.maxVoices)
  {
    hide Stands, CandidateOf;
    assert Listed(cands, a) && Listed(cands, b);
    var i :| 0 <= i < |cands| && cands[i].key == a;
    var j :| 0 <= j < |cands| && cands[j].key == b;
    hide Ranking.Winners;
    if cands[i].audibility > cands[j].audibility {
      Ranking.LouderWins(cands, laws.maxVoices, cands[i], cands[j]);
    } else {
      Ranking.TieGoesToFirst(cands, laws.maxVoices, cands[i], cands[j]);
    }
  }
}
