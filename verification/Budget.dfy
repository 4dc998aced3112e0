/** The voice budget over a whole frame, counted in slots. */
module Budget {
  import opened Common
  import opened SoundState
  import opened Mixing
  import Ranking
  import opened Tuning

  /** The sounding clip layers, the layers of winning emitters and the winning sessions. */
  ghost function Busy(st: Stores): set<Slot> {
    (set id, i | id in st.clips.Keys && 0 <= i < |st.clips[id].layers| && st.clips[id].layers[i].Sounding?
       :: ClipSlot(id, i))
    + (set id, i | id in st.emitters.Keys && st.emitters[id].won && 0 <= i < |st.emitters[id].layers|
         :: EmitterSlot(id, i))
    + (set key | key in st.sessions.Keys && st.sessions[key].Streaming? && st.sessions[key].won :: SessionSlot(key))
  }

  /** The slots a group may fill. */
  ghost function SlotsOf(st: Stores, key: Ranking.GroupKey): set<Slot>
    requires Stands(st, key)
  {
    match key
    case Clip(id) => LayerSlots(id, st.clips[id].layers)
    case Emitter(id) => set i | 0 <= i < |st.emitters[id].layers| :: EmitterSlot(id, i)
    case Voice(id) => {SessionSlot(id)}
  }

  ghost function LayerSlots(id: nat, layers: seq<LayerState>): set<Slot> {
    set i | 0 <= i < |layers| && !layers[i].Done? :: ClipSlot(id, i)
  }

  lemma {:induction false} LayerSlotsCost(id: nat, layers: seq<LayerState>)
    ensures |LayerSlots(id, layers)| == HeldLayers(layers)
  {
    if layers != [] {
      var n := |layers| - 1;
      LayerSlotsCost(id, layers[..n]);
      var rest := LayerSlots(id, layers[..n]);
      assert ClipSlot(id, n) !in rest;
      if layers[n].Done? {
        assert LayerSlots(id, layers) == rest;
      } else {
        assert LayerSlots(id, layers) == rest + {ClipSlot(id, n)};
      }
    }
  }

  lemma {:induction false} EmitterSlotsCost(id: nat, n: nat)
    ensures |set i: int | 0 <= i < n :: EmitterSlot(id, i)| == n
  {
    var all := set i: int | 0 <= i < n :: EmitterSlot(id, i);
    if n > 0 {
      EmitterSlotsCost(id, n - 1);
      var rest := set i: int | 0 <= i < n - 1 :: EmitterSlot(id, i);
      assert EmitterSlot(id, n - 1) !in rest;
      assert all == rest + {EmitterSlot(id, n - 1)};
    } else {
      assert all == {};
    }
  }

  lemma SlotsOfCost(laws: Laws, st: Stores, key: Ranking.GroupKey)
    requires Stands(st, key)
    ensures |SlotsOf(st, key)| == CandidateOf(laws, st, key).cost
  {
    match key
    case Clip(id) => LayerSlotsCost(id, st.clips[id].layers);
    case Emitter(id) =>
      EmitterSlotsCost(id, |st.emitters[id].layers|);
      assert SlotsOf(st, key) == set i: int | 0 <= i < |st.emitters[id].layers| :: EmitterSlot(id, i);
    case Voice(id) =>
  }

  /** The slots of the ranked groups among `won`. */
  ghost function Covered(st: Stores, ranked: seq<Ranking.Candidate>, won: set<Ranking.GroupKey>): set<Slot>
    requires forall i :: 0 <= i < |ranked| ==> Stands(st, ranked[i].key)
  {
    if ranked == [] then {}
    else (if ranked[0].key in won then SlotsOf(st, ranked[0].key) else {}) + Covered(st, ranked[1..], won)
  }

  lemma {:induction false} CoveredCost(
    laws: Laws, st: Stores, ranked: seq<Ranking.Candidate>, won: set<Ranking.GroupKey>)
    requires forall i :: 0 <= i < |ranked| ==>
      Stands(st, ranked[i].key) && ranked[i] == CandidateOf(laws, st, ranked[i].key)
    ensures |Covered(st, ranked, won)| <= Ranking.CostOf(ranked, won)
  {
    hide CandidateOf, Stands, SlotsOf;
    if ranked != [] {
      CoveredCost(laws, st, ranked[1..], won);
      SlotsOfCost(laws, st, ranked[0].key);
      UnionSize(SlotsOf(st, ranked[0].key), Covered(st, ranked[1..], won));
    }
  }

  lemma {:induction false} UnionSize<T>(a: set<T>, b: set<T>)
    ensures |a + b| <= |a| + |b|
  {
    assert a + b == a + (b - a);
    SubsetSize(b - a, b);
  }

  lemma {:induction false} SubsetSize<T>(a: set<T>, b: set<T>)
    requires a <= b
    ensures |a| <= |b|
  {
    if a != {} {
      var x :| x in a;
      SubsetSize(a - {x}, b - {x});
    }
  }

  lemma {:induction false} InCovered(st: Stores, ranked: seq<Ranking.Candidate>, won: set<Ranking.GroupKey>, j: nat,
      slot: Slot)
    requires forall i :: 0 <= i < |ranked| ==> Stands(st, ranked[i].key)
    requires j < |ranked| && ranked[j].key in won && slot in SlotsOf(st, ranked[j].key)
    ensures slot in Covered(st, ranked, won)
  {
    hide Stands, SlotsOf;
    if j > 0 {
      assert ranked[1..][j - 1] == ranked[j];
      InCovered(st, ranked[1..], won, j - 1, slot);
    }
  }

  /** What a frame makes of the stores it ranked: groups only step, and may be released. */
  ghost predicate Stepped(ranked: Stores, st: Stores) {
    && (forall id :: id in st.clips ==> id in ranked.clips && GroupStep(ranked.clips[id], st.clips[id]))
    && (forall id :: id in st.emitters ==> id in ranked.emitters && EmitterStep(ranked.emitters[id], st.emitters[id]))
    && st.sessions == ranked.sessions
  }

  /** After a frame at most `maxVoices` voices are busy. */
  lemma FitsBudget(laws: Laws, obs: Stores, cands: seq<Ranking.Candidate>, st: Stores)
    requires Lists(laws, obs, cands)
    requires Stepped(Marked(obs, Ranking.Winners(cands, laws.maxVoices)), st)
    ensures |Busy(st)| <= laws.maxVoices
  {
    var won := Ranking.Winners(cands, laws.maxVoices);
    var ranked := Ranking.Sort(cands);
    Ranking.SortSorts(cands);
    RankedLists(laws, obs, cands);
    Ranking.CostsFitBudget(ranked, laws.maxVoices);
    CoveredCost(laws, obs, ranked, won);
    forall key | key in won ensures Stands(obs, key) {
      Ranking.GrantedAreRanked(ranked, laws.maxVoices, key);
    }
    hide *;
    BusyIsCovered(laws, obs, ranked, won, st);
    SubsetSize(Busy(st), Covered(obs, ranked, won));
  }

  lemma BeforeDiffers(a: Ranking.Candidate, b: Ranking.Candidate)
    requires Ranking.Before(a, b)
    ensures a != b
  {
  }

  lemma RankedLists(laws: Laws, st: Stores, cands: seq<Ranking.Candidate>)
    requires Lists(laws, st, cands)
    ensures Lists(laws, st, Ranking.Sort(cands))
  {
    hide Stands, CandidateOf;
    var ranked := Ranking.Sort(cands);
    Ranking.SortSorts(cands);
    forall i | 0 <= i < |ranked| ensures ranked[i] in cands {
      assert ranked[i] in multiset(ranked);
      assert ranked[i] in multiset(cands);
    }
    forall i | 0 <= i < |cands| ensures cands[i] in ranked {
      assert cands[i] in multiset(cands);
      assert cands[i] in multiset(ranked);
    }
    forall key | Stands(st, key) ensures Listed(ranked, key) {
      assert Listed(cands, key);
      var i :| 0 <= i < |cands| && cands[i].key == key;
      var j :| 0 <= j < |ranked| && ranked[j] == cands[i];
      assert ranked[j].key == key;
    }
    forall i, j | 0 <= i < j < |ranked| ensures ranked[i].key != ranked[j].key {
      assert Ranking.Before(ranked[i], ranked[j]);
      BeforeDiffers(ranked[i], ranked[j]);
    }
  }

  lemma BusyIsCovered(laws: Laws, obs: Stores, ranked: seq<Ranking.Candidate>, won: set<Ranking.GroupKey>, st: Stores)
    requires Lists(laws, obs, ranked) && Stepped(Marked(obs, won), st)
    requires forall key :: key in won ==> Stands(obs, key)
    ensures Busy(st) <= Covered(obs, ranked, won)
  {
    hide Covered;
    forall slot | slot in Busy(st) ensures slot in Covered(obs, ranked, won) {
      var key := KeyOf(slot);
      BusyIsOfWinner(obs, won, st, slot);
      assert Listed(ranked, key);
      var j :| 0 <= j < |ranked| && ranked[j].key == key;
      InCovered(obs, ranked, won, j, slot);
    }
  }

  function KeyOf(slot: Slot): Ranking.GroupKey {
    match slot
    case ClipSlot(id, _) => Ranking.Clip(id)
    case EmitterSlot(id, _) => Ranking.Emitter(id)
    case SessionSlot(key) => Ranking.Voice(key)
    case UiSlot(h) => Ranking.Clip(h)
  }

  lemma BusyIsOfWinner(obs: Stores, won: set<Ranking.GroupKey>, st: Stores, slot: Slot)
    requires Stepped(Marked(obs, won), st) && slot in Busy(st)
    requires forall key :: key in won ==> Stands(obs, key)
    ensures KeyOf(slot) in won && slot in SlotsOf(obs, KeyOf(slot))
  {
    match slot
    case ClipSlot(id, i) =>
      assert id in st.clips && st.clips[id].layers[i].Sounding?;
      assert GroupStep(Marked(obs, won).clips[id], st.clips[id]);
      assert LayerStep(Marked(obs, won).clips[id], obs.clips[id].layers[i], st.clips[id].layers[i]);
    case EmitterSlot(id, i) =>
      assert EmitterStep(Marked(obs, won).emitters[id], st.emitters[id]);
    case SessionSlot(key) =>
    case UiSlot(h) =>
      assert false;
  }
}
