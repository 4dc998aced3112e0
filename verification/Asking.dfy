/** What a frame asks of the backend, layer by layer, and what its log then holds. */
module Asking {
  import opened Common
  import opened Voice
  import opened SoundState
  import opened Backends
  import opened Mixing
  import opened Tuning

  /** The layers a frame asks the backend for. */
  predicate DueIn(g: Group, i: nat) {
    i < |g.layers| && Due(g, i)
  }

  predicate DueAt(clips: map<nat, Group>, id: nat, i: nat) {
    id in clips && DueIn(clips[id], i)
  }

  /** A winning emitter's layer without a voice, past its delay. */
  predicate LoopDue(e: EmitterVoice, l: EmitterLayer) {
    l.voice.None? && e.won && e.age >= l.draw.delay
  }

  // ----- one layer -----

  /** The request a frame makes for a clip layer, granted what the layer then holds; none if it is not due. */
  function ClipAsk(
    laws: Laws, mix: Mix, id: nat, i: nat, g: Group, was: LayerState, now: LayerState): Option<Call>
  {
    match was
    case Pending(draw) =>
      if g.won && g.age >= draw.delay
      then Some(PlayedClip(LayerVoice(now), draw.clip, ClipGain(laws, mix, g, draw.gain), false, ClipOf(id, i)))
      else None
    case _ => None
  }

  /** The same for a loop's layer. */
  function LoopAsk(
    laws: Laws, mix: Mix, id: nat, i: nat, e: EmitterVoice, was: EmitterLayer, now: EmitterLayer): Option<Call>
  {
    if LoopDue(e, was)
    then Some(PlayedClip(now.voice, was.draw.clip, EmitterGain(laws, mix, e, was.draw.gain), true, EmitterOf(id, i)))
    else None
  }

  /** Every call a frame makes for one layer. */
  function ClipCalls(laws: Laws, mix: Mix, id: nat, i: nat, g: Group, was: LayerState, now: LayerState): seq<Call> {
    match was
    case Sounding(v, gain) => if g.won then [Updated(v, ClipGain(laws, mix, g, gain))] else [Stopped(v)]
    case _ => With([], ClipAsk(laws, mix, id, i, g, was, now))
  }

  function EmitterCalls(
    laws: Laws, mix: Mix, id: nat, i: nat, e: EmitterVoice, was: EmitterLayer, now: EmitterLayer): seq<Call>
  {
    match was.voice
    case Some(v) => [Updated(v, EmitterGain(laws, mix, e, was.draw.gain))]
    case None => With([], LoopAsk(laws, mix, id, i, e, was, now))
  }

  /** At most the request `ask`, for origin `at`, in between. */
  ghost predicate AskedAt(was: seq<Call>, now: seq<Call>, at: Origin, ask: Option<Call>) {
    forall o :: RequestsFor(now, o) == With(RequestsFor(was, o), if o == at then ask else None)
  }

  lemma NothingMore(log: seq<Call>, at: Origin)
    ensures AskedAt(log, log + [], at, None)
  {
    assert log + [] == log;
  }

  lemma ClipCallsAsk(
    laws: Laws, mix: Mix, id: nat, i: nat, g: Group, was: LayerState, now: LayerState, log: seq<Call>)
    ensures AskedAt(log, log + ClipCalls(laws, mix, id, i, g, was, now), ClipOf(id, i),
                    ClipAsk(laws, mix, id, i, g, was, now))
  {
    hide RequestsFor, ClipGain;
    var calls := ClipCalls(laws, mix, id, i, g, was, now);
    if calls == [] {
      NothingMore(log, ClipOf(id, i));
    } else {
      assert calls == [calls[0]];
      OneMoreCall(log, calls[0]);
    }
  }

  lemma EmitterCallsAsk(
    laws: Laws, mix: Mix, id: nat, i: nat, e: EmitterVoice, was: EmitterLayer, now: EmitterLayer, log: seq<Call>)
    ensures AskedAt(log, log + EmitterCalls(laws, mix, id, i, e, was, now), EmitterOf(id, i),
                    LoopAsk(laws, mix, id, i, e, was, now))
  {
    hide RequestsFor, EmitterGain;
    var calls := EmitterCalls(laws, mix, id, i, e, was, now);
    if calls == [] {
      NothingMore(log, EmitterOf(id, i));
    } else {
      assert calls == [calls[0]];
      OneMoreCall(log, calls[0]);
    }
  }

  // ----- one source -----

  function GroupAsk(laws: Laws, mix: Mix, id: nat, was: Group, now: Group, i: nat): Option<Call> {
    if i < |was.layers| && i < |now.layers| then ClipAsk(laws, mix, id, i, was, was.layers[i], now.layers[i]) else None
  }

  function EmitterAsk(laws: Laws, mix: Mix, id: nat, was: EmitterVoice, now: EmitterVoice, i: nat): Option<Call> {
    if i < |was.layers| && i < |now.layers| then LoopAsk(laws, mix, id, i, was, was.layers[i], now.layers[i]) else None
  }

  /** The group's first `n` layers were asked for as they were due, nothing else was. */
  ghost predicate GroupAsked(
    laws: Laws, mix: Mix, id: nat, was: Group, now: Group, log: seq<Call>, later: seq<Call>, n: nat)
  {
    forall o :: RequestsFor(later, o) ==
      With(RequestsFor(log, o), if o.ClipOf? && o.id == id && o.layer < n
                                then GroupAsk(laws, mix, id, was, now, o.layer) else None)
  }

  ghost predicate EmitterAsked(
    laws: Laws, mix: Mix, id: nat, was: EmitterVoice, now: EmitterVoice, log: seq<Call>, later: seq<Call>, n: nat)
  {
    forall o :: RequestsFor(later, o) ==
      With(RequestsFor(log, o), if o.EmitterOf? && o.id == id && o.layer < n
                                then EmitterAsk(laws, mix, id, was, now, o.layer) else None)
  }

  /** One more layer: `mid` is the group after `i` layers, whose other layers `now` leaves alone. */
  lemma GroupAskedMore(
    laws: Laws, mix: Mix, id: nat, was: Group, mid: Group, now: Group,
    log: seq<Call>, between: seq<Call>, later: seq<Call>, i: nat)
    requires GroupAsked(laws, mix, id, was, mid, log, between, i)
    requires i < |was.layers| == |mid.layers| && mid == was.(layers := mid.layers) && mid.layers[i] == was.layers[i]
    requires |now.layers| == |mid.layers| && now.layers == mid.layers[i := now.layers[i]]
    requires AskedAt(between, later, ClipOf(id, i), ClipAsk(laws, mix, id, i, mid, mid.layers[i], now.layers[i]))
    ensures GroupAsked(laws, mix, id, was, now, log, later, i + 1)
  {
    hide RequestsFor, ClipGain;
    if was.layers[i].Pending? {
      SameClipGain(laws, mix, was, mid, was.layers[i].draw.gain);
    }
    forall o ensures RequestsFor(later, o) ==
      With(RequestsFor(log, o), if o.ClipOf? && o.id == id && o.layer < i + 1
                                then GroupAsk(laws, mix, id, was, now, o.layer) else None)
    {
    }
  }

  lemma EmitterAskedMore(
    laws: Laws, mix: Mix, id: nat, was: EmitterVoice, mid: EmitterVoice, now: EmitterVoice,
    log: seq<Call>, between: seq<Call>, later: seq<Call>, i: nat)
    requires EmitterAsked(laws, mix, id, was, mid, log, between, i)
    requires i < |was.layers| == |mid.layers| && mid == was.(layers := mid.layers) && mid.layers[i] == was.layers[i]
    requires |now.layers| == |mid.layers| && now.layers == mid.layers[i := now.layers[i]]
    requires AskedAt(between, later, EmitterOf(id, i), LoopAsk(laws, mix, id, i, mid, mid.layers[i], now.layers[i]))
    ensures EmitterAsked(laws, mix, id, was, now, log, later, i + 1)
  {
    hide RequestsFor, EmitterGain;
    SameEmitterGain(laws, mix, was, mid, was.layers[i].draw.gain);
    forall o ensures RequestsFor(later, o) ==
      With(RequestsFor(log, o), if o.EmitterOf? && o.id == id && o.layer < i + 1
                                then EmitterAsk(laws, mix, id, was, now, o.layer) else None)
    {
    }
  }

  // ----- every source -----

  function ClipsAsk(
    laws: Laws, mix: Mix, was: map<nat, Group>, now: map<nat, Group>, id: nat, i: nat): Option<Call>
  {
    if id in was && id in now then GroupAsk(laws, mix, id, was[id], now[id], i) else None
  }

  function EmittersAsk(
    laws: Laws, mix: Mix, was: map<nat, EmitterVoice>, now: map<nat, EmitterVoice>, id: nat, i: nat): Option<Call>
  {
    if id in was && id in now then EmitterAsk(laws, mix, id, was[id], now[id], i) else None
  }

  /** The groups not in `todo` were asked for, layer by layer, nothing else was. */
  ghost predicate ClipsAsked(
    laws: Laws, mix: Mix, was: map<nat, Group>, now: map<nat, Group>, log: seq<Call>, later: seq<Call>, todo: set<nat>)
  {
    forall o :: RequestsFor(later, o) ==
      With(RequestsFor(log, o), if o.ClipOf? && o.id !in todo
                                then ClipsAsk(laws, mix, was, now, o.id, o.layer) else None)
  }

  ghost predicate EmittersAsked(
    laws: Laws, mix: Mix, was: map<nat, EmitterVoice>, now: map<nat, EmitterVoice>,
    log: seq<Call>, later: seq<Call>, todo: set<nat>)
  {
    forall o :: RequestsFor(later, o) ==
      With(RequestsFor(log, o), if o.EmitterOf? && o.id !in todo
                                then EmittersAsk(laws, mix, was, now, o.id, o.layer) else None)
  }

  lemma NoneAskedYet(
    laws: Laws, mix: Mix, clips: map<nat, Group>, emitters: map<nat, EmitterVoice>, log: seq<Call>)
    ensures ClipsAsked(laws, mix, clips, clips, log, log, clips.Keys)
    ensures EmittersAsked(laws, mix, emitters, emitters, log, log, emitters.Keys)
  {
    hide RequestsFor;
  }

  lemma ClipsAskedMore(
    laws: Laws, mix: Mix, was: map<nat, Group>, mid: map<nat, Group>, now: map<nat, Group>,
    log: seq<Call>, between: seq<Call>, later: seq<Call>, todo: set<nat>, id: nat)
    requires ClipsAsked(laws, mix, was, mid, log, between, todo)
    requires id in todo && id in was && id in mid && mid[id] == was[id] && id in now && now == mid[id := now[id]]
    requires GroupAsked(laws, mix, id, was[id], now[id], between, later, |was[id].layers|)
    ensures ClipsAsked(laws, mix, was, now, log, later, todo - {id})
  {
    hide RequestsFor, ClipAsk;
    forall o ensures RequestsFor(later, o) ==
      With(RequestsFor(log, o), if o.ClipOf? && o.id !in todo - {id}
                                then ClipsAsk(laws, mix, was, now, o.id, o.layer) else None)
    {
    }
  }

  lemma EmittersAskedMore(
    laws: Laws, mix: Mix, was: map<nat, EmitterVoice>, mid: map<nat, EmitterVoice>, now: map<nat, EmitterVoice>,
    log: seq<Call>, between: seq<Call>, later: seq<Call>, todo: set<nat>, id: nat)
    requires EmittersAsked(laws, mix, was, mid, log, between, todo)
    requires id in todo && id in was && id in mid && mid[id] == was[id] && id in now && now == mid[id := now[id]]
    requires EmitterAsked(laws, mix, id, was[id], now[id], between, later, |was[id].layers|)
    ensures EmittersAsked(laws, mix, was, now, log, later, todo - {id})
  {
    hide RequestsFor, LoopAsk;
    forall o ensures RequestsFor(later, o) ==
      With(RequestsFor(log, o), if o.EmitterOf? && o.id !in todo - {id}
                                then EmittersAsk(laws, mix, was, now, o.id, o.layer) else None)
    {
    }
  }

  // ----- a frame -----

  /** What a frame that drove the ranked sources to `driven` asks for on behalf of an origin. */
  function FrameAsk(laws: Laws, mix: Mix, ranked: Stores, driven: Stores, o: Origin): Option<Call> {
    match o
    case ClipOf(id, i) => ClipsAsk(laws, mix, ranked.clips, driven.clips, id, i)
    case EmitterOf(id, i) => EmittersAsk(laws, mix, ranked.emitters, driven.emitters, id, i)
    case _ => None
  }

  /** One request for each due clip layer and each due layer of a loop without a voice, no other. */
  ghost predicate FrameAsked(
    laws: Laws, mix: Mix, ranked: Stores, driven: Stores, log: seq<Call>, later: seq<Call>)
  {
    forall o :: RequestsFor(later, o) == With(RequestsFor(log, o), FrameAsk(laws, mix, ranked, driven, o))
  }

  lemma FrameAskedWhole(
    laws: Laws, mix: Mix, ranked: Stores, driven: Stores, log: seq<Call>, a: seq<Call>, b: seq<Call>, later: seq<Call>)
    requires ClipsAsked(laws, mix, ranked.clips, driven.clips, log, a, {})
    requires EmittersAsked(laws, mix, ranked.emitters, driven.emitters, a, b, {})
    requires SameRequests(b, later)
    ensures FrameAsked(laws, mix, ranked, driven, log, later)
  {
    hide RequestsFor, ClipsAsk, EmittersAsk;
    forall o ensures RequestsFor(later, o) == With(RequestsFor(log, o), FrameAsk(laws, mix, ranked, driven, o)) {
    }
  }

  lemma FrameAskedFrom(
    laws: Laws, mix: Mix, ranked: Stores, driven: Stores, log: seq<Call>, a: seq<Call>, b: seq<Call>, later: seq<Call>)
    requires SameRequests(log, a) && FrameAsked(laws, mix, ranked, driven, a, b) && SameRequests(b, later)
    ensures FrameAsked(laws, mix, ranked, driven, log, later)
  {
    hide RequestsFor, FrameAsk;
  }

  /** In a frame whose sources all took their step, exactly the due layers are asked for: a one-shot's once
      through, a loop's looped, each with its clip and at its level. */
  lemma AskedIfDue(laws: Laws, mix: Mix, ranked: Stores, driven: Stores, id: nat, i: nat)
    requires driven.clips.Keys == ranked.clips.Keys && driven.emitters.Keys == ranked.emitters.Keys
    requires forall k :: k in ranked.clips ==> GroupStep(ranked.clips[k], driven.clips[k])
    requires forall k :: k in ranked.emitters ==> EmitterStep(ranked.emitters[k], driven.emitters[k])
    ensures FrameAsk(laws, mix, ranked, driven, ClipOf(id, i)).Some? <==>
      && id in ranked.clips && i < |ranked.clips[id].layers| && ranked.clips[id].won
      && ranked.clips[id].layers[i].Pending? && ranked.clips[id].layers[i].draw.delay <= ranked.clips[id].age
    ensures FrameAsk(laws, mix, ranked, driven, EmitterOf(id, i)).Some? <==>
      && id in ranked.emitters && i < |ranked.emitters[id].layers| && ranked.emitters[id].won
      && ranked.emitters[id].layers[i].voice.None?
      && ranked.emitters[id].layers[i].draw.delay <= ranked.emitters[id].age
    ensures var ask := FrameAsk(laws, mix, ranked, driven, ClipOf(id, i));
            ask.Some? ==>
              var g := ranked.clips[id];
              var draw := g.layers[i].draw;
              && ask.value.PlayedClip? && ask.value.clip == draw.clip && !ask.value.looped
              && ask.value.origin == ClipOf(id, i) && ask.value.gain == ClipGain(laws, mix, g, draw.gain)
              && ask.value.granted == LayerVoice(driven.clips[id].layers[i])
    ensures var ask := FrameAsk(laws, mix, ranked, driven, EmitterOf(id, i));
            ask.Some? ==>
              var e := ranked.emitters[id];
              var draw := e.layers[i].draw;
              && ask.value.PlayedClip? && ask.value.clip == draw.clip && ask.value.looped
              && ask.value.origin == EmitterOf(id, i) && ask.value.gain == EmitterGain(laws, mix, e, draw.gain)
              && ask.value.granted == driven.emitters[id].layers[i].voice
  {
  }
}
