/** What a frame makes of each source, field by field: new ones, kept ones, aged and observed ones. */
module Sources {
  import opened Common
  import opened SoundState
  import opened Mixing
  import opened Tuning
  import opened Asking
  import opened Budget
  import opened SoundSystems
  import Ranking

  // ----- occurrences -----

  /** The journal holds the id, and the mixer had not come past it. */
  ghost predicate IsNew(mark: Option<nat>, occs: seq<Occurrence>, id: nat) {
    (mark.None? || id > mark.value) && exists i :: 0 <= i < |occs| && occs[i].id == id
  }

  lemma NewInit(mark: Option<nat>, occs: seq<Occurrence>, id: nat)
    requires occs != []
    ensures var n := |occs| - 1;
            IsNew(mark, occs, id) <==>
              IsNew(mark, occs[..n], id) || (occs[n].id == id && (mark.None? || id > mark.value))
  {
    var n := |occs| - 1;
    if IsNew(mark, occs, id) {
      var i :| 0 <= i < |occs| && occs[i].id == id;
      assert i < n ==> occs[..n][i].id == id;
    }
    if IsNew(mark, occs[..n], id) {
      var i :| 0 <= i < n && occs[..n][i].id == id;
      assert occs[i].id == id;
    }
  }

  lemma IncreasingInit(occs: seq<Occurrence>)
    requires Increasing(occs) && occs != []
    ensures Increasing(occs[..|occs| - 1]) && forall i :: 0 <= i < |occs| - 1 ==> occs[i].id != occs[|occs| - 1].id
  {
  }

  /** Exactly the new ids are realized, each once. */
  lemma {:induction false} RealizedOnceIfNew(mark: Option<nat>, occs: seq<Occurrence>, id: nat)
    requires Increasing(occs)
    ensures FreshIds(mark, occs)[id] == if IsNew(mark, occs, id) then 1 else 0
  {
    if occs != [] {
      var n := |occs| - 1;
      IncreasingInit(occs);
      NewInit(mark, occs, id);
      RealizedOnceIfNew(mark, occs[..n], id);
      if occs[n].id == id {
        forall i | 0 <= i < n ensures occs[..n][i].id != id {
          assert occs[..n][i] == occs[i];
        }
        assert !IsNew(mark, occs[..n], id);
      }
    }
  }

  /** The mark ends at the highest id seen, old or new. */
  lemma {:induction false} MarkIsHighest(mark: Option<nat>, occs: seq<Occurrence>)
    ensures var to := Highest(mark, occs);
            && (mark.Some? ==> to.Some? && to.value >= mark.value)
            && (forall i :: 0 <= i < |occs| ==> to.Some? && to.value >= occs[i].id)
            && (to.Some? ==> to == mark || exists i :: 0 <= i < |occs| && occs[i].id == to.value)
  {
    if occs != [] {
      var n := |occs| - 1;
      MarkIsHighest(mark, occs[..n]);
      forall i | 0 <= i < |occs| ensures Highest(mark, occs).Some? && Highest(mark, occs).value >= occs[i].id {
        assert i < n ==> occs[..n][i] == occs[i];
      }
      var to := Highest(mark, occs);
      if to != mark && to != Some(occs[n].id) {
        var i :| 0 <= i < n && occs[..n][i].id == to.value;
        assert occs[i].id == to.value;
      }
    }
  }

  /** A group stands as its occurrence asked: all layers pending with the catalog's draws, of age zero. */
  ghost predicate Begun(laws: Laws, g: Group, o: Occurrence) {
    && g.cue == o.cue && g.at == o.at && g.gain == o.gain && g.age == 0.0 && !g.won && !g.smooth.init
    && |g.layers| == |laws.layers(o.cue, o.id)|
    && forall i :: 0 <= i < |g.layers| ==> g.layers[i] == Pending(DrawsOf(laws, o.cue, o.id)[i])
  }

  /** After the occurrences are in: the new ones have begun, the others are as they were, a frame older. */
  lemma {:induction false} RealizedGroups(
    laws: Laws, clips: map<nat, Group>, dt: real, mark: Option<nat>, occs: seq<Occurrence>, id: nat)
    requires Increasing(occs)
    ensures var now := Realized(laws, Grown(clips, dt), mark, occs);
            && (id in now <==> id in clips || IsNew(mark, occs, id))
            && (!IsNew(mark, occs, id) && id in clips ==> now[id] == clips[id].(age := clips[id].age + dt))
            && (forall i :: 0 <= i < |occs| && occs[i].id == id && IsNew(mark, occs, id) ==>
                  Begun(laws, now[id], occs[i]))
  {
    if occs != [] {
      var n := |occs| - 1;
      var now := Realized(laws, Grown(clips, dt), mark, occs);
      IncreasingInit(occs);
      NewInit(mark, occs, id);
      RealizedGroups(laws, clips, dt, mark, occs[..n], id);
      hide Newborn;
      if occs[n].id == id {
        forall i | 0 <= i < n ensures occs[..n][i].id != id {
          assert occs[..n][i] == occs[i];
        }
        NewbornBegins(laws, occs[n]);
      } else {
        forall i | 0 <= i < |occs| && occs[i].id == id && IsNew(mark, occs, id) ensures Begun(laws, now[id], occs[i]) {
          assert occs[..n][i] == occs[i];
        }
      }
    }
  }

  lemma NewbornBegins(laws: Laws, o: Occurrence)
    ensures Begun(laws, Newborn(laws, o), o)
  {
  }

  // ----- the emitter table -----

  /** The first entry of its id. */
  ghost predicate FirstOf(table: seq<Emitter>, i: nat) {
    i < |table| && forall j :: 0 <= j < i ==> table[j].id != table[i].id
  }

  lemma {:induction false} FindsFirst(table: seq<Emitter>, i: nat)
    requires FirstOf(table, i)
    ensures FindEmitter(table, table[i].id) == Some(table[i])
  {
    if i > 0 {
      assert table[1..][i - 1] == table[i];
      forall j | 0 <= j < i - 1 ensures table[1..][j].id != table[1..][i - 1].id {
        assert table[1..][j] == table[j + 1];
      }
      FindsFirst(table[1..], i - 1);
    }
  }

  /** An entry's emitter has its cue, place and gain. It goes on as it was, a frame older, if it was there with
      that cue; else it starts without a voice, with the catalog's draws. */
  lemma ReconciledAt(laws: Laws, was: map<nat, EmitterVoice>, dt: real, table: seq<Emitter>, i: nat)
    requires FirstOf(table, i)
    ensures var e, now := table[i], Reconciled(laws, GrownEmitters(was, dt), table);
            && e.id in now && now[e.id].cue == e.cue && now[e.id].at == e.at && now[e.id].gain == e.gain
            && (if e.id in was && was[e.id].cue == e.cue
                then && now[e.id].layers == was[e.id].layers && now[e.id].age == was[e.id].age + dt
                     && now[e.id].smooth == was[e.id].smooth
                else && now[e.id].age == 0.0 && !now[e.id].smooth.init
                     && now[e.id].layers == Unvoiced(DrawsOf(laws, e.cue, Salted(e.id))))
  {
    FindsFirst(table, i);
    FindsTabled(table, table[i].id);
  }

  function Unvoiced(draws: seq<LayerDraw>): seq<EmitterLayer> {
    seq(|draws|, i requires 0 <= i < |draws| => EmitterLayer(draws[i], None))
  }

  /** No two ids share a draw id, and none draws with its own. */
  lemma SaltsDiffer(a: nat, b: nat)
    ensures Salted(a) == Salted(b) <==> a == b
    ensures Salted(Salted(a)) == a && Salted(a) != a
  {
  }

  // ----- observing -----

  /** The first observation is taken as it is. A later one leaves the share `1 - k` of the way on both axes:
      all of it at 0, none of it at 1, and it never goes past in between. */
  lemma ObserveMoves(s: Smooth, raw: Coords, k: real)
    ensures var to := Observe(s, raw, k);
            && to.init
            && (!s.init ==> to.distance == raw.distance && to.occlusion == raw.occlusion)
            && (s.init ==>
                  && raw.distance - to.distance == Level(raw.distance - s.distance, 1.0 - k)
                  && raw.occlusion - to.occlusion == Level(raw.occlusion - s.occlusion, 1.0 - k))
            && (s.init && 0.0 <= k <= 1.0 ==>
                  && Between(s.distance, to.distance, raw.distance)
                  && Between(s.occlusion, to.occlusion, raw.occlusion))
  {
    TheRest(raw.distance - s.distance, k);
    TheRest(raw.occlusion - s.occlusion, k);
    if s.init && 0.0 <= k <= 1.0 {
      StaysBetween(s.distance, raw.distance, k);
      StaysBetween(s.occlusion, raw.occlusion, k);
    }
  }

  predicate Between(a: real, x: real, b: real) {
    a <= x <= b || b <= x <= a
  }

  lemma StaysBetween(a: real, b: real, k: real)
    requires 0.0 <= k <= 1.0
    ensures Between(a, a + Level(b - a, k), b)
  {
    var d := b - a;
    Share(d, k);
    hide Level;
  }

  lemma TheRest(d: real, k: real)
    ensures Level(d, 1.0 - k) == d - Level(d, k)
  {
  }

  lemma Share(d: real, k: real)
    requires 0.0 <= k <= 1.0
    ensures d >= 0.0 ==> 0.0 <= Level(d, k) <= d
    ensures d <= 0.0 ==> d <= Level(d, k) <= 0.0
  {
  }

  /** Each source is observed where it is: a clip at its place, heard from nowhere if it has none; an absent
      session is left alone. */
  lemma ObservedWhereTheyAre(st: Stores, w: Window, listener: Listener, k: real)
    ensures var to := Observed(st, w, listener, k);
            && to.clips.Keys == st.clips.Keys && to.emitters.Keys == st.emitters.Keys
            && to.sessions.Keys == st.sessions.Keys && to.ui == st.ui
            && (forall id :: id in st.clips ==>
                  to.clips[id] == st.clips[id].(won := false, smooth := Observe(st.clips[id].smooth,
                    if st.clips[id].at.Some? then w.trace(listener, st.clips[id].at.value) else Coords(0.0, 0.0), k)))
            && (forall id :: id in st.emitters ==>
                  to.emitters[id] == st.emitters[id].(won := false,
                    smooth := Observe(st.emitters[id].smooth, w.trace(listener, st.emitters[id].at), k)))
            && (forall key :: key in st.sessions && st.sessions[key].Streaming? && !st.sessions[key].present ==>
                  to.sessions[key] == st.sessions[key].(won := false))
            && (forall key :: key in st.sessions && st.sessions[key].Streaming? && st.sessions[key].present ==>
                  to.sessions[key] == st.sessions[key].(won := false, smooth := Observe(st.sessions[key].smooth,
                    if st.sessions[key].lastAt.Some? then w.trace(listener, st.sessions[key].lastAt.value)
                    else Coords(0.0, 0.0), k)))
  {
    hide Observe;
  }

  // ----- ranking -----

  /** The peak of the draws is one of them, or zero. */
  lemma {:induction false} PeakIsDrawn(layers: seq<EmitterLayer>)
    ensures PeakDraw(layers) >= 0.0 && forall i :: 0 <= i < |layers| ==> layers[i].draw.gain <= PeakDraw(layers)
    ensures PeakDraw(layers) > 0.0 ==> exists i :: 0 <= i < |layers| && layers[i].draw.gain == PeakDraw(layers)
  {
    if layers != [] {
      var n := |layers| - 1;
      PeakIsDrawn(layers[..n]);
      forall i | 0 <= i < |layers| ensures layers[i].draw.gain <= PeakDraw(layers) {
        assert i < n ==> layers[..n][i] == layers[i];
      }
      if PeakDraw(layers) > 0.0 && PeakDraw(layers) != layers[n].draw.gain {
        var i :| 0 <= i < n && layers[..n][i].draw.gain == PeakDraw(layers);
        assert layers[i].draw.gain == PeakDraw(layers);
      }
    }
  }

  /** Audibility is not only a bound: with the buses full and nothing cut off, a source is ranked by exactly
      the level at which its loudest layer, or its stream, would be sent. */
  lemma RankedAtItsLevel(laws: Laws, r: Response, s: Smooth, authored: real)
    requires 0.0 <= SpatialBase(laws, r, s) <= 1.0 && authored >= 0.0
    requires Level(SpatialBase(laws, r, s), authored) <= 4.0
    ensures DspGain(laws, r, s, authored, 1.0) == Audibility(laws, r, s, authored)
  {
    ProductIsPositive(SpatialBase(laws, r, s), authored);
    assert Level(Level(SpatialBase(laws, r, s), authored), 1.0) == Level(SpatialBase(laws, r, s), authored);
    hide Level;
  }

  /** Nothing is cut off. */
  predicate Uncut(laws: Laws, r: Response, s: Smooth, authored: real) {
    0.0 <= SpatialBase(laws, r, s) <= 1.0 && authored >= 0.0 && Level(SpatialBase(laws, r, s), authored) <= 4.0
  }

  lemma CandidatesAreLevels(laws: Laws, mix: Mix, st: Stores, key: Ranking.GroupKey)
    requires Stands(st, key) && mix.effects == 1.0 && mix.voice == 1.0 && !mix.deafen
    ensures match key
            case Clip(id) =>
              var g := st.clips[id];
              Uncut(laws, ResponseOf(laws, g.cue), g.smooth, Level(g.gain, PeakOf(laws, g.cue))) ==>
                CandidateOf(laws, st, key).audibility == ClipGain(laws, mix, g, PeakOf(laws, g.cue))
            case Emitter(id) =>
              var e := st.emitters[id];
              e.won && Uncut(laws, ResponseOf(laws, e.cue), e.smooth, Level(e.gain, PeakDraw(e.layers))) ==>
                CandidateOf(laws, st, key).audibility == EmitterGain(laws, mix, e, PeakDraw(e.layers))
            case Voice(id) =>
              var s := st.sessions[id];
              s.won && Uncut(laws, VoiceCue, s.smooth, 1.0) ==>
                CandidateOf(laws, st, key).audibility == SessionGain(laws, mix, s)
  {
    hide DspGain, Audibility, SpatialBase, Level;
    match key
    case Clip(id) =>
      var g := st.clips[id];
      if Uncut(laws, ResponseOf(laws, g.cue), g.smooth, Level(g.gain, PeakOf(laws, g.cue))) {
        RankedAtItsLevel(laws, ResponseOf(laws, g.cue), g.smooth, Level(g.gain, PeakOf(laws, g.cue)));
      }
    case Emitter(id) =>
      var e := st.emitters[id];
      if Uncut(laws, ResponseOf(laws, e.cue), e.smooth, Level(e.gain, PeakDraw(e.layers))) {
        RankedAtItsLevel(laws, ResponseOf(laws, e.cue), e.smooth, Level(e.gain, PeakDraw(e.layers)));
      }
    case Voice(id) =>
      var s := st.sessions[id];
      if Uncut(laws, VoiceCue, s.smooth, 1.0) {
        RankedAtItsLevel(laws, VoiceCue, s.smooth, 1.0);
      }
  }

  /** An absent session, or one that is closed, stands for no voice and is granted none. */
  lemma AbsentAreNotHeard(laws: Laws, st: Stores, cands: seq<Ranking.Candidate>, key: nat)
    requires Lists(laws, st, cands) && key in st.sessions && st.sessions[key].Streaming?
    ensures var now := Marked(st, Ranking.Winners(cands, laws.maxVoices)).sessions[key];
            now.won ==> st.sessions[key].present
  {
    var won := Ranking.Winners(cands, laws.maxVoices);
    if Ranking.Voice(key) in won {
      Ranking.SortSorts(cands);
      RankedLists(laws, st, cands);
      Ranking.GrantedAreRanked(Ranking.Sort(cands), laws.maxVoices, Ranking.Voice(key));
      var ranked := Ranking.Sort(cands);
      var i :| 0 <= i < |ranked| && ranked[i].key == Ranking.Voice(key);
      assert Stands(st, ranked[i].key);
    }
  }
}
