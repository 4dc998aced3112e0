/** The audio service: a journal of occurrences minted in order, submitted once a frame. */
module Services {
  import opened Common
  import opened SoundState
  import opened Mixing
  import opened Tuning
  import opened Budget
  import opened SoundSystems
  import opened Backends
  import opened Asking
  import opened Loudness
  import Ranking
  import Sessions
  import opened Frames

  const COUNTER_END := 0x1_0000_0000_0000_0000

  // ----- exactly once, on values -----

  /** Ids realized, and requests in the backend's log for each layer of a one-shot: at most one each, all
      of ids below `bound`, and none yet for a layer still pending. */
  ghost predicate OnceBelow(clips: map<nat, Group>, realized: multiset<nat>, log: seq<Call>, bound: nat) {
    && (forall id: nat :: realized[id] <= 1)
    && (forall id: nat :: realized[id] > 0 ==> id < bound)
    && OnceAsked(log, bound)
    && (forall id: nat :: id in clips ==> id < bound)
    && NeverAsked(clips, log)
  }

  ghost predicate OnceAsked(log: seq<Call>, bound: nat) {
    forall id: nat, i: nat ::
      |RequestsFor(log, ClipOf(id, i))| <= 1 && (RequestsFor(log, ClipOf(id, i)) != [] ==> id < bound)
  }

  /** A pending layer has not been asked for. */
  ghost predicate NeverAsked(clips: map<nat, Group>, log: seq<Call>) {
    forall id: nat, i: nat ::
      id in clips && i < |clips[id].layers| && clips[id].layers[i].Pending? ==> RequestsFor(log, ClipOf(id, i)) == []
  }

  /** No layer of a one-shot was asked for in between. */
  ghost predicate SameClips(log: seq<Call>, later: seq<Call>) {
    forall id: nat, i: nat :: RequestsFor(later, ClipOf(id, i)) == RequestsFor(log, ClipOf(id, i))
  }

  /** No stream was asked for in between. */
  ghost predicate StreamsSame(log: seq<Call>, later: seq<Call>) {
    forall key: nat :: RequestsFor(later, StreamOf(key)) == RequestsFor(log, StreamOf(key))
  }

  lemma NoStreams(log: seq<Call>)
    ensures StreamsSame(log, log)
  {
  }

  lemma FrameOpensNone(
    laws: Laws, mix: Mix, ranked: Stores, driven: Stores, now: Stores, log: seq<Call>, later: seq<Call>)
    requires Drove(laws, mix, ranked, driven, now, log, later)
    ensures StreamsSame(log, later)
  {
    hide RequestsFor;
  }

  lemma OnceSame(clips: map<nat, Group>, realized: multiset<nat>, log: seq<Call>, later: seq<Call>, bound: nat)
    requires OnceBelow(clips, realized, log, bound) && SameClips(log, later)
    ensures OnceBelow(clips, realized, later, bound)
  {
    hide RequestsFor;
  }

  ghost predicate Between(journal: seq<Occurrence>, low: nat, high: nat) {
    forall i :: 0 <= i < |journal| ==> low <= journal[i].id < high
  }

  function Ids(journal: seq<Occurrence>): multiset<nat> {
    if journal == [] then multiset{} else Ids(journal[..|journal| - 1]) + multiset{journal[|journal| - 1].id}
  }

  lemma NoIds()
    ensures Ids([]) == multiset{}
  {
  }

  /** Every entry of a journal beyond the mark is realized. */
  lemma {:induction false} AllFresh(mark: Option<nat>, journal: seq<Occurrence>)
    requires forall i :: 0 <= i < |journal| ==> Fresh(mark, journal[i].id)
    ensures FreshIds(mark, journal) == Ids(journal)
  {
    if journal != [] {
      AllFresh(mark, journal[..|journal| - 1]);
    }
  }

  lemma {:induction false} IdsOnce(journal: seq<Occurrence>, low: nat, high: nat)
    requires Increasing(journal) && Between(journal, low, high)
    ensures forall id :: Ids(journal)[id] <= 1
    ensures forall id :: Ids(journal)[id] > 0 <==> exists i :: 0 <= i < |journal| && journal[i].id == id
    ensures forall id :: Ids(journal)[id] > 0 ==> low <= id < high
  {
    if journal != [] {
      var n := |journal| - 1;
      var init := journal[..n];
      IdsOnce(init, low, high);
      forall id ensures Ids(journal)[id] > 0 <==> exists i :: 0 <= i < |journal| && journal[i].id == id {
        if Ids(init)[id] > 0 {
          var i :| 0 <= i < |init| && init[i].id == id;
          assert journal[i].id == id;
        }
        if i :| 0 <= i < |journal| && journal[i].id == id {
          assert i < n ==> init[i].id == id;
        }
      }
    }
  }

  /** A realized group is one that was there, or a newborn of the journal. */
  lemma {:induction false} RealizedFrom(laws: Laws, clips: map<nat, Group>, mark: Option<nat>, occs: seq<Occurrence>,
      id: nat)
    requires id in Realized(laws, clips, mark, occs)
    ensures || (id in clips && Realized(laws, clips, mark, occs)[id] == clips[id])
            || exists i :: 0 <= i < |occs| && occs[i].id == id
  {
    if occs != [] {
      var n := |occs| - 1;
      if occs[n].id != id || !Fresh(mark, occs[n].id) {
        RealizedFrom(laws, clips, mark, occs[..n], id);
        if i :| 0 <= i < n && occs[..n][i].id == id {
          assert occs[i].id == id;
        }
      }
    }
  }

  /** What one mixed frame keeps: with a journal of new ids, nothing is realized or asked for twice. */
  lemma OnceKept(
    laws: Laws, mix: Mix, st: Stores, mark: Option<nat>, frame: Frame, w: Window, won: set<Ranking.GroupKey>,
    driven: Stores, now: Stores, wasRealized: multiset<nat>, realized: multiset<nat>, log: seq<Call>, later: seq<Call>,
    low: nat, high: nat)
    requires OnceBelow(st.clips, wasRealized, log, low) && low <= high
    requires Increasing(frame.occurrences) && Between(frame.occurrences, low, high)
    requires forall i :: 0 <= i < |frame.occurrences| ==> Fresh(mark, frame.occurrences[i].id)
    requires realized == wasRealized + FreshIds(mark, frame.occurrences)
    requires Drove(laws, mix, Marked(Sourced(laws, st, mark, frame, w), won), driven, now, log, later)
    ensures OnceBelow(now.clips, realized, later, high)
    ensures realized == wasRealized + Ids(frame.occurrences)
  {
    var ranked := Marked(Sourced(laws, st, mark, frame, w), won);
    AllFresh(mark, frame.occurrences);
    RealizedOnce(wasRealized, frame.occurrences, low, high);
    forall id | id in ranked.clips
      ensures id < high && (low <= id || (id in st.clips && ranked.clips[id].layers == st.clips[id].layers))
    {
      RankedLayer(laws, st, mark, frame, w, won, id);
    }
    hide Sourced, Marked, FreshIds, Ids, RequestsFor;
    AskedOnce(laws, mix, st.clips, ranked, driven, now, log, later, low, high);
  }

  lemma RealizedOnce(was: multiset<nat>, journal: seq<Occurrence>, low: nat, high: nat)
    requires forall id: nat :: was[id] <= 1
    requires forall id: nat :: was[id] > 0 ==> id < low
    requires Increasing(journal) && Between(journal, low, high) && low <= high
    ensures forall id: nat :: (was + Ids(journal))[id] <= 1
    ensures forall id: nat :: (was + Ids(journal))[id] > 0 ==> id < high
  {
    IdsOnce(journal, low, high);
  }

  /** Layers that were pending, or are newborn, are asked for at most once. */
  lemma AskedOnce(
    laws: Laws, mix: Mix, clips: map<nat, Group>, ranked: Stores, driven: Stores, now: Stores,
    log: seq<Call>, later: seq<Call>, low: nat, high: nat)
    requires OnceAsked(log, low) && NeverAsked(clips, log) && low <= high
    requires forall id :: id in ranked.clips ==>
      id < high && (low <= id || (id in clips && ranked.clips[id].layers == clips[id].layers))
    requires Drove(laws, mix, ranked, driven, now, log, later)
    ensures OnceAsked(later, high) && NeverAsked(now.clips, later)
    ensures forall id: nat :: id in now.clips ==> id < high
  {
    hide RequestsFor, GroupStep, EmitterStep, DueIn, LoopDue, OnceAsked, NeverAsked, FrameAsk;
    forall id: nat, i: nat
      ensures |RequestsFor(later, ClipOf(id, i))| <= 1 && (RequestsFor(later, ClipOf(id, i)) != [] ==> id < high)
    {
      AskedOnceAt(laws, mix, clips, ranked, driven, log, later, low, high, id, i);
    }
    AskedOnceIs(later, high);
    forall id: nat, i: nat | id in now.clips && i < |now.clips[id].layers| && now.clips[id].layers[i].Pending?
      ensures RequestsFor(later, ClipOf(id, i)) == []
    {
      PendingUnasked(laws, mix, clips, ranked, driven, log, later, low, high, id, i);
    }
    NeverAskedIs(now.clips, later);
  }

  lemma AskedOnceIs(log: seq<Call>, bound: nat)
    requires forall id: nat, i: nat ::
      |RequestsFor(log, ClipOf(id, i))| <= 1 && (RequestsFor(log, ClipOf(id, i)) != [] ==> id < bound)
    ensures OnceAsked(log, bound)
  {
    hide RequestsFor;
  }

  lemma NeverAskedIs(clips: map<nat, Group>, log: seq<Call>)
    requires forall id: nat, i: nat ::
      id in clips && i < |clips[id].layers| && clips[id].layers[i].Pending? ==> RequestsFor(log, ClipOf(id, i)) == []
    ensures NeverAsked(clips, log)
  {
    hide RequestsFor;
  }

  lemma AskedOnceAt(
    laws: Laws, mix: Mix, clips: map<nat, Group>, ranked: Stores, driven: Stores,
    log: seq<Call>, later: seq<Call>, low: nat, high: nat, id: nat, i: nat)
    requires OnceAsked(log, low) && NeverAsked(clips, log) && low <= high
    requires forall id :: id in ranked.clips ==>
      id < high && (low <= id || (id in clips && ranked.clips[id].layers == clips[id].layers))
    requires driven.clips.Keys == ranked.clips.Keys && driven.emitters.Keys == ranked.emitters.Keys
    requires forall k :: k in ranked.clips ==> GroupStep(ranked.clips[k], driven.clips[k])
    requires forall k :: k in ranked.emitters ==> EmitterStep(ranked.emitters[k], driven.emitters[k])
    requires FrameAsked(laws, mix, ranked, driven, log, later)
    ensures |RequestsFor(later, ClipOf(id, i))| <= 1 && (RequestsFor(later, ClipOf(id, i)) != [] ==> id < high)
    ensures RequestsFor(later, ClipOf(id, i)) != [] && RequestsFor(log, ClipOf(id, i)) == [] ==>
      DueAt(ranked.clips, id, i)
  {
    hide RequestsFor, GroupStep, EmitterStep, FrameAsk;
    AskedIfDue(laws, mix, ranked, driven, id, i);
    if DueAt(ranked.clips, id, i) {
      assert RequestsFor(log, ClipOf(id, i)) == [];
    }
  }

  lemma PendingUnasked(
    laws: Laws, mix: Mix, clips: map<nat, Group>, ranked: Stores, driven: Stores,
    log: seq<Call>, later: seq<Call>, low: nat, high: nat, id: nat, i: nat)
    requires OnceAsked(log, low) && NeverAsked(clips, log) && low <= high
    requires forall id :: id in ranked.clips ==>
      id < high && (low <= id || (id in clips && ranked.clips[id].layers == clips[id].layers))
    requires driven.clips.Keys == ranked.clips.Keys && driven.emitters.Keys == ranked.emitters.Keys
    requires forall k :: k in ranked.clips ==> GroupStep(ranked.clips[k], driven.clips[k])
    requires forall k :: k in ranked.emitters ==> EmitterStep(ranked.emitters[k], driven.emitters[k])
    requires FrameAsked(laws, mix, ranked, driven, log, later)
    requires id in driven.clips && i < |driven.clips[id].layers| && driven.clips[id].layers[i].Pending?
    ensures RequestsFor(later, ClipOf(id, i)) == []
  {
    AskedOnceAt(laws, mix, clips, ranked, driven, log, later, low, high, id, i);
    hide RequestsFor, FrameAsk, FrameAsked;
    assert GroupStep(ranked.clips[id], driven.clips[id]);
    assert LayerStep(ranked.clips[id], ranked.clips[id].layers[i], driven.clips[id].layers[i]);
    assert RequestsFor(log, ClipOf(id, i)) == [] && !DueAt(ranked.clips, id, i);
  }

  /** A ranked group either has the layers it had, or is a newborn of this frame. */
  lemma RankedLayer(laws: Laws, st: Stores, mark: Option<nat>, frame: Frame, w: Window, won: set<Ranking.GroupKey>,
      id: nat)
    requires id in Marked(Sourced(laws, st, mark, frame, w), won).clips
    ensures var g := Marked(Sourced(laws, st, mark, frame, w), won).clips[id];
            || (id in st.clips && g.layers == st.clips[id].layers)
            || exists i :: 0 <= i < |frame.occurrences| && frame.occurrences[i].id == id
  {
    RealizedFrom(laws, Grown(st.clips, frame.dt), mark, frame.occurrences, id);
  }

  lemma AllBeyond(mark: Option<nat>, journal: seq<Occurrence>, low: nat, high: nat)
    requires Between(journal, low, high) && (mark.Some? ==> mark.value < low)
    ensures forall i :: 0 <= i < |journal| ==> Fresh(mark, journal[i].id)
  {
  }

  lemma OnceHigher(clips: map<nat, Group>, realized: multiset<nat>, log: seq<Call>, low: nat, high: nat)
    requires OnceBelow(clips, realized, log, low) && low <= high
    ensures OnceBelow(clips, realized, log, high)
  {
    hide RequestsFor;
  }

  lemma {:induction false} MarkStaysBelow(mark: Option<nat>, journal: seq<Occurrence>, low: nat, high: nat)
    requires Between(journal, low, high) && low <= high && (mark.Some? ==> mark.value < low)
    ensures Highest(mark, journal).Some? ==> Highest(mark, journal).value < high
  {
    if journal != [] {
      MarkStaysBelow(mark, journal[..|journal| - 1], low, high);
    }
  }

  /** Over a catalog as authored: no voice is louder than its source is audible. */
  ghost predicate Loud(sound: SoundSystem)
    reads sound, sound.backend
  {
    Authored(sound.laws) && Bounded(sound.laws, sound.mix, sound.St(), sound.backend.gains)
  }

  /** A frame whose ids all lie in a range the mixer has seen nothing of. */
  method SubmitOnce(sound: SoundSystem, frame: Frame, raised: set<nat>, ghost low: nat, ghost high: nat)
    returns (outcome: Outcome)
    requires sound.Valid() && OnceBelow(sound.clips, sound.realized, sound.backend.log, low)
    requires sound.mark.Some? ==> sound.mark.value < low
    requires low <= high && Increasing(frame.occurrences) && Between(frame.occurrences, low, high)
    requires sound.LiveSources() || frame.occurrences != [] || frame.emitters != [] ==> frame.window.Some?
    requires NonNegative(frame)
    modifies sound, sound.backend
    ensures old(Loud(sound)) ==> Loud(sound)
    ensures sound.Valid() && OnceBelow(sound.clips, sound.realized, sound.backend.log, high)
    ensures sound.mark.Some? ==> sound.mark.value < high
    ensures outcome.Dead? <==> !sound.backend.device.up
    ensures outcome.Mixed? <==>
      sound.backend.device.up && (old(sound.LiveSources()) || frame.occurrences != [] || frame.emitters != [])
    ensures !outcome.Blind?
    ensures sound.realized
         == if sound.backend.device.up then old(sound.realized) + Ids(frame.occurrences) else old(sound.realized)
    ensures Sessions.OnlyHeard(old(sound.sessions), sound.sessions)
    ensures StreamsSame(old(sound.backend.log), sound.backend.log)
  {
    hide SoundSystem.Valid, OnceBelow, FreshIds, Sourced, FrameOf, Lists, AllSlots, Tuned, Between, Ids, Increasing,
      Sessions.OnlyHeard, Drove, Busy, Within, Authored, UnitMix, NoLouder, NonNegative;
    ghost var st, mark, realized, log := sound.St(), sound.mark, sound.realized, sound.backend.log;
    ghost var mix, gains, bounded := sound.mix, sound.backend.gains, Loud(sound);
    ghost var cands, driven;
    outcome, cands, driven := sound.Submit(frame, raised);
    MarkStaysBelow(mark, frame.occurrences, low, high);
    NoIds();
    if outcome.Mixed? {
      AllBeyond(mark, frame.occurrences, low, high);
      OnceKept(sound.laws, mix, st, mark, frame, frame.window.value, Ranking.Winners(cands, sound.laws.maxVoices),
        driven, sound.St(), realized, sound.realized, log, sound.backend.log, low, high);
      if bounded {
        FrameBounds(sound.laws, mix, gains, st, mark, frame, frame.window.value, cands, sound.St(),
          sound.backend.gains);
      }
      FrameOpensNone(sound.laws, mix, Ranked(sound.laws, st, mark, frame, frame.window.value, cands), driven,
        sound.St(), log, sound.backend.log);
    } else {
      OnceHigher(sound.clips, sound.realized, sound.backend.log, low, high);
      NoStreams(log);
    }
  }

  // ----- the service -----

  datatype Bed = Bed(cue: int, gain: real)

  /** The world as the acoustic window sees it: where the listener's cell is, and what a capture gives. */
  datatype Surroundings = Surroundings(cell: (int, int, int), editGen: int, capture: Window)

  class AudioService {
    var journal: seq<Occurrence>
    var nextOccurrence: nat
    var ambient: Option<Bed>
    var window: Option<Window>
    var editGen: int
    var cell: (int, int, int)
    var timer: real
    var lastCommit: Option<Position>
    var dirty: bool

    /** What a journal always is: the frame's validator can refuse none of it. */
    ghost predicate Ready()
      reads this
    {
      && nextOccurrence < COUNTER_END
      && |journal| <= MAX_OCCURRENCES
      && Increasing(journal) && Between(journal, Low(), nextOccurrence)
      && (forall i :: 0 <= i < |journal| ==> GainInRange(journal[i].gain))
      && (ambient.Some? ==> GainInRange(ambient.value.gain))
      && (journal != [] ==> dirty)
    }

    /** The oldest id not yet submitted. */
    ghost function Low(): nat
      reads this
    {
      if journal == [] then nextOccurrence else journal[0].id
    }

    /** The mixer has seen no id of the journal, and none beyond it. */
    ghost predicate Joined(sound: SoundSystem)
      reads this, sound, sound.backend
    {
      && Ready()
      && OnceBelow(sound.clips, sound.realized, sound.backend.log, Low())
      && (sound.mark.Some? ==> sound.mark.value < Low())
    }

    constructor ()
      ensures Ready() && journal == [] && nextOccurrence == 0 && window.None?
    {
      journal, nextOccurrence, ambient := [], 0, None;
      window, editGen, cell, timer := None, -1, (0, 0, 0), 0.0;
      lastCommit, dirty := None, false;
    }

    /** Drop world-scoped memory; the occurrence counter stays. */
    method EnterWorld()
      requires Ready()
      modifies this
      ensures Ready() && journal == [] && nextOccurrence == old(nextOccurrence) && ambient.None? && window.None?
      ensures lastCommit.None? && !dirty
      ensures Low() >= old(Low())
    {
      journal, ambient, window, timer := [], None, None, 0.0;
      lastCommit, dirty := None, false;
    }

    method Mint() returns (id: nat)
      requires nextOccurrence + 1 < COUNTER_END
      modifies this`nextOccurrence
      ensures id == old(nextOccurrence) && nextOccurrence == id + 1
    {
      id := nextOccurrence;
      nextOccurrence := (nextOccurrence + 1) % COUNTER_END;
    }

    /** Queue a one-shot; `cue` is what the name resolved to. */
    method PlayAt(cue: Option<int>, at: Position, gain: real) returns (ok: bool)
      requires Ready() && nextOccurrence + 1 < COUNTER_END
      modifies this`journal, this`nextOccurrence, this`dirty
      ensures Ready() && Low() == old(Low())
      ensures ok <==> cue.Some? && |old(journal)| < MAX_OCCURRENCES
      ensures ok ==> nextOccurrence == old(nextOccurrence) + 1
      ensures ok ==>
        journal == old(journal) + [Occurrence(old(nextOccurrence), cue.value, Some(at), Clamp(gain, 0.0, MAX_GAIN))]
      ensures !ok ==> journal == old(journal) && nextOccurrence == old(nextOccurrence)
      ensures dirty == (old(dirty) || ok)
    {
      if |journal| >= MAX_OCCURRENCES {
        return false;
      }
      match cue {
        case None => return false;
        case Some(c) =>
          var id := Mint();
          journal := journal + [Occurrence(id, c, Some(at), Clamp(gain, 0.0, MAX_GAIN))];
          dirty := true;
          return true;
      }
    }

    method PlayAmbient(cue: Option<int>, gain: real) returns (ok: bool)
      requires Ready()
      modifies this`ambient, this`dirty
      ensures Ready() && ok == cue.Some?
      ensures ambient == if ok then Some(Bed(cue.value, Clamp(gain, 0.0, MAX_GAIN))) else old(ambient)
      ensures dirty == (old(dirty) || ok)
    {
      ok := cue.Some?;
      if ok {
        ambient, dirty := Some(Bed(cue.value, Clamp(gain, 0.0, MAX_GAIN))), true;
      }
    }

    method StopAmbient()
      requires Ready()
      modifies this`ambient, this`dirty
      ensures Ready() && ambient.None? && dirty == (old(dirty) || old(ambient).Some?)
    {
      if ambient.Some? {
        dirty := true;
      }
      ambient := None;
    }

    /** The window to trace through: recaptured when the cell, the edits or its age ask for it. */
    method Refresh(world: Surroundings, dt: real, needed: bool) returns (w: Option<Window>)
      modifies this`window, this`editGen, this`cell, this`timer
      ensures w == window && (needed ==> w.Some?)
      ensures needed ==> editGen == world.editGen && cell == world.cell
      ensures needed ==>
        || (window == Some(world.capture) && timer == 0.0)
        || (window == old(window) && old(editGen) == world.editGen && old(cell) == world.cell
          && timer == old(timer) + dt < 0.5)
      ensures !needed ==>
        window == old(window) && editGen == old(editGen) && cell == old(cell) && timer == old(timer) + dt
    {
      timer := timer + dt;
      if !needed && window.None? {
        return None;
      }
      var stale := window.None? || world.editGen != editGen || world.cell != cell || timer >= 0.5;
      if stale && needed {
        window := Some(world.capture);
        editGen, cell, timer := world.editGen, world.cell, 0.0;
      }
      return window;
    }

    /** The frame a journal becomes: the validator takes every one of them. */
    method BuildFrame(live: bool, world: Surroundings, listener: Listener, dt: real) returns (frame: Frame)
      requires Ready()
      modifies this`window, this`editGen, this`cell, this`timer
      ensures Admissible(frame.dt, frame.occurrences, frame.emitters) && frame.occurrences == journal
      ensures frame.emitters == match ambient
                                case Some(bed) => [Emitter(1, bed.cue, listener.pos, bed.gain)]
                                case None => []
      ensures frame.dt == Clamp(dt, 0.0001, 0.5) && frame.listener == listener
      ensures live || journal != [] || frame.emitters != [] ==> frame.window.Some?
      ensures NonNegative(frame)
    {
      var emitters: seq<Emitter> :=
        match ambient case Some(bed) => [Emitter(1, bed.cue, listener.pos, bed.gain)] case None => [];
      var needed := live || journal != [] || emitters != [];
      var w := Refresh(world, dt, needed);
      var r := New(Clamp(dt, 0.0001, 0.5), listener, journal, emitters, w);
      match r {
        case Accepted(f) =>
          frame := f;
        case Refused(_) =>
          assert false;
      }
    }

    lemma LowBelowNext()
      requires Ready()
      ensures Low() <= nextOccurrence
    {
      if journal != [] {
        assert journal[0].id < nextOccurrence;
      }
    }

    /** Submit the journal. With a device each entry is realized once, here; without one, never. */
    method Finish(sound: SoundSystem, world: Surroundings, listener: Listener, dt: real, raised: set<nat>)
      returns (outcome: Outcome)
      requires sound.Valid() && Joined(sound)
      modifies this, sound, sound.backend
      ensures sound.Valid() && Joined(sound)
      ensures journal == [] && nextOccurrence == old(nextOccurrence) && ambient == old(ambient)
      ensures !dirty && lastCommit == Some(listener.pos)
      ensures outcome.Dead? <==> !sound.backend.device.up
      ensures outcome.Mixed? <==>
        sound.backend.device.up && (old(sound.LiveSources()) || old(journal) != [] || old(ambient).Some?)
      ensures !outcome.Blind?
      ensures sound.realized
           == if sound.backend.device.up then old(sound.realized) + Ids(old(journal)) else old(sound.realized)
      ensures Sessions.OnlyHeard(old(sound.sessions), sound.sessions)
      ensures old(Loud(sound)) ==> Loud(sound)
      ensures StreamsSame(old(sound.backend.log), sound.backend.log)
    {
      hide SoundSystem.Valid, OnceBelow, Ids, Sessions.OnlyHeard, Increasing, Between, Loud, NonNegative, StreamsSame;
      var frame := BuildFrame(sound.LiveSources(), world, listener, dt);
      LowBelowNext();
      outcome := SubmitOnce(sound, frame, raised, Low(), nextOccurrence);
      journal := [];
      lastCommit, dirty := Some(listener.pos), false;
      NothingQueued();
    }

    lemma NothingQueued()
      ensures Increasing([]) && Between([], nextOccurrence, nextOccurrence)
    {
    }

    /** Nothing sounds, nothing is queued, and the caller reports an idle frame within a hair of the last commit. */
    predicate CanSkip(sound: SoundSystem, idle: bool, still: bool)
      reads this, sound
    {
      idle && !dirty && !sound.LiveSources() && sound.ui == [] && lastCommit.Some? && still
    }

    /** A commit is skipped only while no voice is alive and nothing waits to be played. */
    lemma SkippedInSilence(sound: SoundSystem, idle: bool, still: bool)
      requires sound.Valid() && Joined(sound) && CanSkip(sound, idle, still)
      ensures sound.backend.live == {} && journal == [] && idle && still && lastCommit.Some?
    {
      hide SoundSystem.Valid, OnceBelow;
      sound.SilentWithoutSources();
    }

    /** A frame's commit: `skip` is what `CanSkip` answered before the modules' hooks ran. Whatever it
        was, nothing the hooks queued is left behind. */
    method Commit(
      sound: SoundSystem, world: Surroundings, listener: Listener, dt: real, raised: set<nat>, skip: bool)
      requires sound.Valid() && Joined(sound)
      modifies this, sound, sound.backend
      ensures sound.Valid() && Joined(sound)
      ensures journal == [] && nextOccurrence == old(nextOccurrence) && ambient == old(ambient)
      ensures sound.realized
           == if sound.backend.device.up then old(sound.realized) + Ids(old(journal)) else old(sound.realized)
      ensures Sessions.OnlyHeard(old(sound.sessions), sound.sessions)
      ensures old(Loud(sound)) ==> Loud(sound)
      ensures StreamsSame(old(sound.backend.log), sound.backend.log)
      ensures skip && !old(dirty) ==> sound.St() == old(sound.St()) && sound.backend.log == old(sound.backend.log)
      ensures !dirty && lastCommit == if skip && !old(dirty) then old(lastCommit) else Some(listener.pos)
    {
      if skip && !dirty {
        hide SoundSystem.Valid, OnceBelow, Bounded, Authored, StreamsSame, Sessions.OnlyHeard;
        NoIds();
        NoStreams(sound.backend.log);
        sound.SameTable(sound.sessions);
        var reports := sound.PollStarvation(raised);
      } else {
        hide SoundSystem.Valid, OnceBelow, Ids, Loud, StreamsSame, Sessions.OnlyHeard;
        var outcome := Finish(sound, world, listener, dt, raised);
      }
    }

    /** A menu hook has played its cues already: with nothing queued for a world there is nothing to commit. */
    method SettleMenu()
      requires Ready()
      modifies this`dirty
      ensures Ready() && dirty == (old(dirty) && (journal != [] || ambient.Some?))
    {
      if journal == [] && ambient.None? {
        dirty := false;
      }
    }

    /** A request that queues nothing still asks for a commit. */
    method Note()
      requires Ready()
      modifies this`dirty
      ensures Ready() && dirty
    {
      dirty := true;
    }
  }
}
