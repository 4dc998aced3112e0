/** Any sequence of requests to the service and the mixer, in any order, world changes included. */
module AudioRuns {
  import opened Common
  import opened Voice
  import opened SoundState
  import opened Backends
  import opened Mixing
  import opened SoundSystems
  import opened Tuning
  import opened Budget
  import opened Loudness
  import opened Services
  import opened Streams
  import opened Frames
  import Sessions

  datatype Request =
    | PlayAt(cue: Option<int>, at: Position, gain: real)
    | PlayAmbient(cue: Option<int>, gain: real)
    | StopAmbient
    | PlayUi(uiCue: int, gain: real, now: real, later: real)
    | Tick(now: real)
    | PushVoice(packet: Packet)
    | PlaceVoice(key: nat, present: bool, where: Option<Position>)
    | CloseVoice(key: nat)
    | ChangeMix(effects: real, voice: real, deafen: bool)
    | CommitFrame(world: Surroundings, listener: Listener, dt: real, raised: set<nat>, skip: bool)
    | MenuFrame
    | ChangeWorld
    | SetDevice(up: bool)

  /** Every voice ever granted is live and held in exactly one place, or was stopped exactly once. */
  ghost predicate EveryVoiceKept(sound: SoundSystem)
    reads sound, sound.backend
  {
    forall h: Handle :: h < sound.backend.next ==>
      if h in sound.backend.live
      then sound.backend.stopped[h] == 0 && HeldOnce(sound.St(), h)
      else sound.backend.stopped[h] == 1 && !Held(sound.St(), h)
  }

  ghost predicate HeldOnce(st: Stores, h: Handle) {
    Held(st, h) && forall s, t :: At(st, s) == Some(h) && At(st, t) == Some(h) ==> s == t
  }

  lemma ValidKeepsVoices(sound: SoundSystem)
    requires sound.Valid()
    ensures EveryVoiceKept(sound)
  {
    var st, live := sound.St(), sound.backend.live;
    forall h: Handle | Held(st, h) ensures h in live {
      var slot :| At(st, slot) == Some(h);
      assert At(st, slot).value in live;
    }
  }

  // ----- what a run realizes, computed from its requests alone -----

  /** The next id, the ids queued, the ids realized so far, and whether there is a device. */
  datatype Ledger = Ledger(next: nat, queued: seq<nat>, realized: multiset<nat>, up: bool)

  function After(l: Ledger, r: Request): Ledger {
    match r
    case PlayAt(cue, _, _) =>
      if cue.Some? && |l.queued| < MAX_OCCURRENCES then l.(next := l.next + 1, queued := l.queued + [l.next]) else l
    case CommitFrame(_, _, _, _, _) =>
      l.(queued := [], realized := if l.up then l.realized + multiset(l.queued) else l.realized)
    case ChangeWorld => l.(queued := [])
    case SetDevice(up) => l.(up := up)
    case _ => l
  }

  function AfterAll(l: Ledger, script: seq<Request>): Ledger {
    if script == [] then l else After(AfterAll(l, script[..|script| - 1]), script[|script| - 1])
  }

  function JournalIds(journal: seq<Occurrence>): seq<nat> {
    seq(|journal|, i requires 0 <= i < |journal| => journal[i].id)
  }

  ghost function LedgerOf(service: AudioService, sound: SoundSystem): Ledger
    reads service, sound, sound.backend.device
  {
    Ledger(service.nextOccurrence, JournalIds(service.journal), sound.realized, sound.backend.device.up)
  }

  lemma {:induction false} IdsOfJournal(journal: seq<Occurrence>)
    ensures Ids(journal) == multiset(JournalIds(journal))
  {
    if journal != [] {
      var n := |journal| - 1;
      IdsOfJournal(journal[..n]);
      assert JournalIds(journal) == JournalIds(journal[..n]) + [journal[n].id];
    }
  }

  lemma QueuedMore(journal: seq<Occurrence>, o: Occurrence)
    ensures JournalIds(journal + [o]) == JournalIds(journal) + [o.id]
  {
  }

  /** Ids queued are new and distinct; ids realized were realized once, before any queued. */
  ghost predicate Sound(l: Ledger) {
    && (forall i, j :: 0 <= i < j < |l.queued| ==> l.queued[i] < l.queued[j])
    && (forall i :: 0 <= i < |l.queued| ==> l.queued[i] < l.next && l.realized[l.queued[i]] == 0)
    && (forall id: nat :: l.realized[id] <= 1 && (l.realized[id] > 0 ==> id < l.next))
  }

  lemma {:induction false} CountedIfQueued(queued: seq<nat>, id: nat)
    requires forall i, j :: 0 <= i < j < |queued| ==> queued[i] < queued[j]
    ensures multiset(queued)[id] == if id in queued then 1 else 0
  {
    if queued != [] {
      var n := |queued| - 1;
      assert queued == queued[..n] + [queued[n]];
      CountedIfQueued(queued[..n], id);
    }
  }

  lemma AfterKeepsSound(l: Ledger, r: Request)
    requires Sound(l)
    ensures Sound(After(l, r))
  {
    if r.CommitFrame? && l.up {
      forall id: nat ensures After(l, r).realized[id] <= 1 && (After(l, r).realized[id] > 0 ==> id < l.next) {
        CountedIfQueued(l.queued, id);
      }
    }
  }

  lemma {:induction false} AfterAllKeepsSound(l: Ledger, script: seq<Request>)
    requires Sound(l)
    ensures Sound(AfterAll(l, script))
  {
    if script != [] {
      AfterAllKeepsSound(l, script[..|script| - 1]);
      AfterKeepsSound(AfterAll(l, script[..|script| - 1]), script[|script| - 1]);
    }
  }

  /** The request empties the journal. */
  predicate Closes(r: Request) {
    r.CommitFrame? || r.ChangeWorld?
  }

  predicate Queues(l: Ledger, r: Request) {
    r.PlayAt? && r.cue.Some? && |l.queued| < MAX_OCCURRENCES
  }

  lemma SettledStep(l: Ledger, r: Request, id: nat)
    requires Sound(l) && id < l.next && id !in l.queued
    ensures var end := After(l, r);
            id < end.next && id !in end.queued && end.realized[id] == l.realized[id]
  {
    CountedIfQueued(l.queued, id);
  }

  /** Once an id is minted and no longer queued, nothing changes how often it was realized. */
  lemma {:induction false} SettledStays(l: Ledger, script: seq<Request>, id: nat)
    requires Sound(l) && id < l.next && id !in l.queued
    ensures var end := AfterAll(l, script);
            id < end.next && id !in end.queued && end.realized[id] == l.realized[id]
  {
    if script != [] {
      var init := script[..|script| - 1];
      AfterAllKeepsSound(l, init);
      SettledStays(l, init, id);
      hide After, Sound;
      SettledStep(AfterAll(l, init), script[|script| - 1], id);
    }
  }

  lemma {:induction false} StaysQueued(l: Ledger, script: seq<Request>, id: nat)
    requires Sound(l) && id in l.queued && forall i :: 0 <= i < |script| ==> !Closes(script[i])
    ensures id in AfterAll(l, script).queued && AfterAll(l, script).realized == l.realized
  {
    if script != [] {
      var init := script[..|script| - 1];
      forall i | 0 <= i < |init| ensures !Closes(init[i]) {
        assert init[i] == script[i];
      }
      StaysQueued(l, init, id);
      assert !Closes(script[|script| - 1]);
    }
  }

  lemma {:induction false} AfterJoin(l: Ledger, a: seq<Request>, b: seq<Request>)
    ensures AfterAll(l, a + b) == AfterAll(AfterAll(l, a), b)
  {
    if b == [] {
      assert a + b == a;
    } else {
      var n := |b| - 1;
      assert (a + b)[..|a + b| - 1] == a + b[..n];
      AfterJoin(l, a, b[..n]);
    }
  }

  lemma Split(l: Ledger, script: seq<Request>, i: nat)
    requires i < |script|
    ensures AfterAll(l, script) == AfterAll(After(AfterAll(l, script[..i]), script[i]), script[i + 1..])
  {
    OneMoreRequest(l, script, i);
    assert script == script[..i + 1] + script[i + 1..];
    AfterJoin(l, script[..i + 1], script[i + 1..]);
  }

  lemma QueuesNext(l: Ledger, r: Request)
    requires Sound(l) && Queues(l, r)
    ensures l.next in After(l, r).queued
  {
    assert After(l, r).queued[|l.queued|] == l.next;
  }

  lemma ClosingSettles(l: Ledger, r: Request, id: nat)
    requires Sound(l) && id in l.queued && Closes(r)
    ensures id < After(l, r).next && id !in After(l, r).queued
    ensures After(l, r).realized[id] == if r.CommitFrame? && l.up then 1 else 0
  {
    CountedIfQueued(l.queued, id);
  }

  /** An occurrence queued by the `i`th request, the journal next emptied by the `j`th: it is realized,
      exactly once over the whole run, if and only if the `j`th is a commit with a device; else never. */
  lemma RealizedWhenCommitted(l: Ledger, script: seq<Request>, i: nat, j: nat)
    requires Sound(l) && i < j < |script|
    requires Queues(AfterAll(l, script[..i]), script[i]) && Closes(script[j])
    requires forall k :: i < k < j ==> !Closes(script[k])
    ensures AfterAll(l, script).realized[AfterAll(l, script[..i]).next]
         == if script[j].CommitFrame? && AfterAll(l, script[..j]).up then 1 else 0
  {
    hide After, AfterAll, Sound, Closes, Queues;
    var before, closing := AfterAll(l, script[..i]), AfterAll(l, script[..j]);
    var id, between := before.next, script[i + 1..j];
    AfterAllKeepsSound(l, script[..i]);
    QueuesNext(before, script[i]);
    AfterKeepsSound(before, script[i]);
    forall k | 0 <= k < |between| ensures !Closes(between[k]) {
      assert between[k] == script[i + 1 + k];
    }
    StaysQueued(After(before, script[i]), between, id);
    assert closing == AfterAll(After(before, script[i]), between) by {
      assert script[..j][..i] == script[..i] && script[..j][i + 1..] == between && script[..j][i] == script[i];
      Split(l, script[..j], i);
    }
    AfterAllKeepsSound(l, script[..j]);
    ClosingSettles(closing, script[j], id);
    AfterKeepsSound(closing, script[j]);
    Split(l, script, j);
    SettledStays(After(closing, script[j]), script[j + 1..], id);
  }

  // ----- what a request does to the mixer -----

  /** What the session table sees of a request. */
  ghost predicate Recorded(r: Request, e: Sessions.Event) {
    match r
    case PushVoice(p) => e.Ingest? && e.key == p.session && e.epoch == p.epoch
    case PlaceVoice(key, present, at) => e == Sessions.Present(key, present, at)
    case CloseVoice(key) => e == Sessions.Close(key)
    case ChangeWorld => e == Sessions.NewWorld
    case _ => e.Mixed?
  }

  /** The request took the session table one step, and was granted the streams of that step alone. */
  ghost predicate SessionsStep(
    r: Request, t: Sessions.Table, now: Sessions.Table, log: seq<Call>, later: seq<Call>, e: Sessions.Event)
  {
    Recorded(r, e) && Sessions.Allowed(t, e) && now == Sessions.Next(t, e) && OpenedBy(log, later, t, e)
  }

  /** A packet was answered as its epoch asks, and granted what its event says. */
  ghost predicate Answered(
    r: Request, e: Sessions.Event, t: Sessions.Table, now: Sessions.Table, log: seq<Call>, later: seq<Call>, up: bool)
  {
    r.PushVoice? ==> e.Ingest? && exists took :: PacketAnswered(t, now, log, later, r.packet, e.grant, took, up)
  }

  lemma Unheard(r: Request, sound: SoundSystem, t: Sessions.Table, log: seq<Call>)
    requires Recorded(r, Sessions.Mixed(sound.sessions))
    requires Sessions.OnlyHeard(t, sound.sessions) && StreamsSame(log, sound.backend.log)
    ensures SessionsStep(r, t, sound.sessions, log, sound.backend.log, Sessions.Mixed(sound.sessions))
  {
    hide StreamsSame;
    OpensNone(log, sound.backend.log, t, Sessions.Mixed(sound.sessions));
  }

  /** The service's own requests leave the mixer alone. */
  lemma Untouched(r: Request, sound: SoundSystem)
    requires Recorded(r, Sessions.Mixed(sound.sessions))
    ensures SessionsStep(r, sound.sessions, sound.sessions, sound.backend.log, sound.backend.log,
                         Sessions.Mixed(sound.sessions))
  {
    sound.SameTable(sound.sessions);
    NoStreams(sound.backend.log);
    Unheard(r, sound, sound.sessions, sound.backend.log);
  }

  method PerformUi(sound: SoundSystem, cue: int, gain: real, now: real, later: real, ghost bound: nat)
    requires sound.Valid() && OnceBelow(sound.clips, sound.realized, sound.backend.log, bound)
    modifies sound`ui, sound`uiCounter, sound.backend
    ensures sound.Valid() && OnceBelow(sound.clips, sound.realized, sound.backend.log, bound)
    ensures old(Loud(sound)) ==> Loud(sound)
    ensures StreamsSame(old(sound.backend.log), sound.backend.log)
  {
    hide OnceBelow, RequestsFor, Within, NoLouder, Authored, KeptGains, Owns;
    ghost var st, gains, log, loud := sound.St(), sound.backend.gains, sound.backend.log, Loud(sound);
    var bad, kept, settled, grants := sound.PlayUi(cue, gain, now, later);
    SameAsks(log, settled);
    UiAsks(settled, sound.backend.log[|settled|..]);
    assert settled + sound.backend.log[|settled|..] == sound.backend.log;
    OnceSame(sound.clips, sound.realized, log, sound.backend.log, bound);
    if loud {
      UiBounds(sound.laws, sound.mix, sound.mix, st, sound.St(), gains, sound.backend.gains);
    }
  }

  method PerformTick(sound: SoundSystem, now: real, ghost bound: nat)
    requires sound.Valid() && OnceBelow(sound.clips, sound.realized, sound.backend.log, bound)
    modifies sound`ui, sound.backend
    ensures sound.Valid() && OnceBelow(sound.clips, sound.realized, sound.backend.log, bound)
    ensures old(Loud(sound)) ==> Loud(sound)
    ensures StreamsSame(old(sound.backend.log), sound.backend.log)
  {
    hide OnceBelow, RequestsFor, Within, NoLouder, Authored, KeptGains, Owns;
    ghost var st, gains, log, loud := sound.St(), sound.backend.gains, sound.backend.log, Loud(sound);
    sound.Service(now);
    SameAsks(log, sound.backend.log);
    OnceSame(sound.clips, sound.realized, log, sound.backend.log, bound);
    if loud {
      sound.FewerIsKept(gains, sound.backend.gains);
      UiBounds(sound.laws, sound.mix, sound.mix, st, sound.St(), gains, sound.backend.gains);
    }
  }

  method PerformMix(sound: SoundSystem, effects: real, voice: real, deafen: bool)
    requires sound.Valid()
    modifies sound`mix
    ensures sound.Valid()
    ensures old(Loud(sound)) ==> Loud(sound)
  {
    hide Within, NoLouder, Authored, Owns;
    ghost var mix, loud := sound.mix, Loud(sound);
    sound.SetMix(effects, voice, deafen);
    if loud {
      UiBounds(sound.laws, mix, sound.mix, sound.St(), sound.St(), sound.backend.gains, sound.backend.gains);
    }
  }

  method PerformPacket(sound: SoundSystem, pkt: Packet, ghost bound: nat)
    returns (ghost grant: Option<Handle>, ghost took: bool)
    requires sound.Valid() && OnceBelow(sound.clips, sound.realized, sound.backend.log, bound)
    modifies sound`sessions, sound`starved, sound.backend
    ensures sound.Valid() && OnceBelow(sound.clips, sound.realized, sound.backend.log, bound)
    ensures old(Loud(sound)) ==> Loud(sound)
    ensures PacketAnswered(old(sound.sessions), sound.sessions, old(sound.backend.log), sound.backend.log, pkt, grant,
                           took, sound.backend.device.up)
    ensures var e := Sessions.Ingest(pkt.session, pkt.epoch, grant);
      && sound.sessions == Sessions.Next(old(sound.sessions), e)
      && OpenedBy(old(sound.backend.log), sound.backend.log, old(sound.sessions), e)
  {
    hide OnceBelow, RequestsFor, Bounded, Authored, KeptGains, Owns, OpenedBy;
    ghost var st, gains, log, loud := sound.St(), sound.backend.gains, sound.backend.log, Loud(sound);
    grant, took := sound.IngestVoice(pkt);
    StreamAsked(log, sound.backend.log, st.sessions, sound.sessions, pkt, grant, took, sound.backend.device.up);
    OnceSame(sound.clips, sound.realized, log, sound.backend.log, bound);
    if loud {
      SessionBounds(sound.laws, sound.mix, st, sound.St(), pkt.session, gains, sound.backend.gains);
    }
  }

  method PerformPlace(sound: SoundSystem, key: nat, present: bool, where: Option<Position>)
    requires sound.Valid()
    modifies sound`sessions
    ensures sound.Valid() && sound.sessions == Sessions.AfterPresent(old(sound.sessions), key, present, where)
    ensures old(Loud(sound)) ==> Loud(sound)
  {
    hide Bounded, Authored, Owns;
    ghost var st, loud := sound.St(), Loud(sound);
    sound.SetSessionPresent(key, present, where);
    if loud {
      SessionBounds(sound.laws, sound.mix, st, sound.St(), key, sound.backend.gains, sound.backend.gains);
    }
  }

  method PerformClose(sound: SoundSystem, key: nat, ghost bound: nat)
    requires sound.Valid() && OnceBelow(sound.clips, sound.realized, sound.backend.log, bound)
    modifies sound`sessions, sound`starved, sound.backend
    ensures sound.Valid() && OnceBelow(sound.clips, sound.realized, sound.backend.log, bound)
    ensures old(Loud(sound)) ==> Loud(sound)
    ensures sound.sessions == Sessions.AfterClose(old(sound.sessions), key)
    ensures StreamsSame(old(sound.backend.log), sound.backend.log)
  {
    hide OnceBelow, RequestsFor, Bounded, Authored, KeptGains, Owns;
    ghost var st, gains, log, loud := sound.St(), sound.backend.gains, sound.backend.log, Loud(sound);
    sound.CloseSession(key);
    SameAsks(log, sound.backend.log);
    OnceSame(sound.clips, sound.realized, log, sound.backend.log, bound);
    if loud {
      sound.FewerIsKept(gains, sound.backend.gains);
      SessionBounds(sound.laws, sound.mix, st, sound.St(), key, gains, sound.backend.gains);
    }
  }

  /** The requests that go to the mixer alone. */
  method PerformSound(service: AudioService, sound: SoundSystem, r: Request) returns (ghost e: Sessions.Event)
    requires sound.Valid() && service.Joined(sound)
    requires r.PlayUi? || r.Tick? || r.PushVoice? || r.PlaceVoice? || r.CloseVoice? || r.ChangeMix?
    modifies service`dirty, sound, sound.backend
    ensures sound.Valid() && service.Joined(sound) && sound.realized == old(sound.realized)
    ensures old(Loud(sound)) ==> Loud(sound)
    ensures SessionsStep(r, old(sound.sessions), sound.sessions, old(sound.backend.log), sound.backend.log, e)
    ensures Answered(r, e, old(sound.sessions), sound.sessions, old(sound.backend.log), sound.backend.log,
                     sound.backend.device.up)
  {
    hide SoundSystem.Valid, OnceBelow, Between, Increasing, Loud, StreamsSame, OpenedBy, Sessions.OnlyHeard,
      PacketAnswered;
    ghost var t, log, low := sound.sessions, sound.backend.log, service.Low();
    sound.SameTable(t);
    NoStreams(log);
    e := Sessions.Mixed(t);
    match r {
      case PlayUi(cue, gain, now, later) =>
        PerformUi(sound, cue, gain, now, later, low);
        service.Note();
        Unheard(r, sound, t, log);
      case Tick(now) =>
        PerformTick(sound, now, low);
        Unheard(r, sound, t, log);
      case PushVoice(packet) =>
        ghost var grant, took := PerformPacket(sound, packet, low);
        service.Note();
        e := Sessions.Ingest(packet.session, packet.epoch, grant);
      case PlaceVoice(key, present, where) =>
        PerformPlace(sound, key, present, where);
        e := Sessions.Present(key, present, where);
        OpensNone(log, sound.backend.log, t, e);
      case CloseVoice(key) =>
        PerformClose(sound, key, low);
        e := Sessions.Close(key);
        OpensNone(log, sound.backend.log, t, e);
      case ChangeMix(effects, voice, deafen) =>
        PerformMix(sound, effects, voice, deafen);
        Unheard(r, sound, t, log);
    }
  }

  lemma OnceAfterWorld(
    clips: map<nat, Group>, realized: multiset<nat>, log: seq<Call>, later: seq<Call>, low: nat, high: nat)
    requires OnceBelow(clips, realized, log, low) && low <= high && SameClips(log, later)
    ensures OnceBelow(map[], realized, later, high)
  {
    hide RequestsFor;
  }

  method PerformWorldChange(service: AudioService, sound: SoundSystem)
    requires sound.Valid() && service.Joined(sound)
    modifies service, sound, sound.backend
    ensures sound.Valid() && service.Joined(sound)
    ensures sound.backend.live == {} && sound.realized == old(sound.realized)
    ensures service.journal == [] && service.nextOccurrence == old(service.nextOccurrence)
    ensures old(Loud(sound)) ==> Loud(sound)
    ensures SessionsStep(ChangeWorld, old(sound.sessions), sound.sessions, old(sound.backend.log), sound.backend.log,
                         Sessions.NewWorld)
  {
    hide SoundSystem.Valid, OnceBelow, Between, Increasing, Authored, StreamsSame, OpenedBy, RequestsFor, Within,
      NoLouder;
    ghost var clips, low, log, t := sound.clips, service.Low(), sound.backend.log, sound.sessions;
    ghost var loud := Loud(sound);
    sound.EnterWorld();
    service.EnterWorld();
    SameAsks(log, sound.backend.log);
    OnceAfterWorld(clips, sound.realized, log, sound.backend.log, low, service.Low());
    OpensNone(log, sound.backend.log, t, Sessions.NewWorld);
    if loud {
      NothingIsLoud(sound.laws, sound.mix, sound.backend.gains);
    }
  }

  /** The requests that stay in the service, and the device's comings and goings. */
  method PerformService(service: AudioService, sound: SoundSystem, r: Request)
    requires service.Joined(sound) && service.nextOccurrence + 1 < COUNTER_END
    requires r.PlayAt? || r.PlayAmbient? || r.StopAmbient? || r.MenuFrame? || r.SetDevice?
    modifies service, sound.backend.device
    ensures service.Joined(sound) && LedgerOf(service, sound) == After(old(LedgerOf(service, sound)), r)
    ensures old(service.nextOccurrence) <= service.nextOccurrence <= old(service.nextOccurrence) + 1
  {
    hide OnceBelow, Between, Increasing;
    match r {
      case PlayAt(cue, at, gain) =>
        var ok := service.PlayAt(cue, at, gain);
        if ok {
          QueuedMore(old(service.journal), service.journal[|service.journal| - 1]);
        }
      case PlayAmbient(cue, gain) =>
        var ok := service.PlayAmbient(cue, gain);
      case StopAmbient =>
        service.StopAmbient();
      case MenuFrame =>
        service.SettleMenu();
      case SetDevice(up) =>
        sound.backend.device.SetAlive(up);
    }
  }

  method PerformCommit(service: AudioService, sound: SoundSystem, r: Request)
    requires sound.Valid() && service.Joined(sound) && r.CommitFrame?
    modifies service, sound, sound.backend
    ensures sound.Valid() && service.Joined(sound)
    ensures LedgerOf(service, sound) == After(old(LedgerOf(service, sound)), r)
    ensures service.nextOccurrence == old(service.nextOccurrence)
    ensures old(Loud(sound)) ==> Loud(sound)
    ensures SessionsStep(r, old(sound.sessions), sound.sessions, old(sound.backend.log), sound.backend.log,
                         Sessions.Mixed(sound.sessions))
  {
    hide SoundSystem.Valid, OnceBelow, Between, Increasing, Ids, Loud, StreamsSame, Sessions.OnlyHeard, SessionsStep;
    ghost var t, log := sound.sessions, sound.backend.log;
    IdsOfJournal(service.journal);
    service.Commit(sound, r.world, r.listener, r.dt, r.raised, r.skip);
    Unheard(r, sound, t, log);
  }

  /** One request, as the ledger says; `e` is the step the session table took. */
  method Perform(service: AudioService, sound: SoundSystem, r: Request) returns (ghost e: Sessions.Event)
    requires sound.Valid() && service.Joined(sound) && service.nextOccurrence + 1 < COUNTER_END
    modifies service, sound, sound.backend, sound.backend.device
    ensures sound.Valid() && service.Joined(sound)
    ensures LedgerOf(service, sound) == After(old(LedgerOf(service, sound)), r)
    ensures old(service.nextOccurrence) <= service.nextOccurrence <= old(service.nextOccurrence) + 1
    ensures r.ChangeWorld? ==> sound.backend.live == {}
    ensures old(Loud(sound)) ==> Loud(sound)
    ensures SessionsStep(r, old(sound.sessions), sound.sessions, old(sound.backend.log), sound.backend.log, e)
    ensures r.PushVoice? ==>
      Answered(r, e, old(sound.sessions), sound.sessions, old(sound.backend.log), sound.backend.log,
               sound.backend.device.up)
  {
    hide SoundSystem.Valid, AudioService.Joined, Answered, Loud, SessionsStep;
    match r {
      case CommitFrame(_, _, _, _, _) =>
        PerformCommit(service, sound, r);
        e := Sessions.Mixed(sound.sessions);
      case ChangeWorld =>
        PerformWorldChange(service, sound);
        e := Sessions.NewWorld;
      case PlayUi(_, _, _, _) => e := PerformSound(service, sound, r);
      case Tick(_) => e := PerformSound(service, sound, r);
      case PushVoice(_) => e := PerformSound(service, sound, r);
      case PlaceVoice(_, _, _) => e := PerformSound(service, sound, r);
      case CloseVoice(_) => e := PerformSound(service, sound, r);
      case ChangeMix(_, _, _) => e := PerformSound(service, sound, r);
      case _ =>
        PerformService(service, sound, r);
        Untouched(r, sound);
        e := Sessions.Mixed(sound.sessions);
    }
  }

  // ----- whole runs -----

  /** What the session table saw of the script. */
  ghost predicate RecordedAll(script: seq<Request>, history: seq<Sessions.Event>) {
    |history| == |script| && forall i :: 0 <= i < |script| ==> Recorded(script[i], history[i])
  }

  /** The table followed the history, and the streams granted to each session are those it opens. */
  ghost predicate SessionsRan(
    script: seq<Request>, t: Sessions.Table, now: Sessions.Table, log: seq<Call>, later: seq<Call>,
    history: seq<Sessions.Event>)
  {
    && RecordedAll(script, history)
    && Sessions.AllowedRun(t, history) && now == Sessions.End(t, history)
    && forall key: nat :: EpochsOf(later, key) == EpochsOf(log, key) + Sessions.Opened(t, history, key)
  }

  lemma SessionsRanOn(
    script: seq<Request>, t: Sessions.Table, mid: Sessions.Table, now: Sessions.Table,
    log: seq<Call>, between: seq<Call>, later: seq<Call>, history: seq<Sessions.Event>, r: Request, e: Sessions.Event)
    requires SessionsRan(script, t, mid, log, between, history) && SessionsStep(r, mid, now, between, later, e)
    ensures SessionsRan(script + [r], t, now, log, later, history + [e])
  {
    hide EpochsOf, Recorded, Sessions.Allowed, Sessions.Next, Sessions.NewStream;
    Sessions.RunOfOne(mid, e, 0);
    Sessions.RunJoin(t, history, [e], 0);
    forall key: nat
      ensures EpochsOf(later, key) == EpochsOf(log, key) + Sessions.Opened(t, history + [e], key)
    {
      Sessions.RunJoin(t, history, [e], key);
      Sessions.RunOfOne(mid, e, key);
    }
  }

  lemma NothingRan(t: Sessions.Table, log: seq<Call>, l: Ledger)
    ensures SessionsRan([], t, t, log, log, []) && AfterAll(l, []) == l
  {
    hide EpochsOf;
  }

  /** Over any stretch of a history that does not forget a session's floor, the epochs of the streams the
      backend granted for it, as its log holds them, rise strictly. */
  lemma GrantedEpochsRise(
    script: seq<Request>, t: Sessions.Table, now: Sessions.Table, log: seq<Call>, later: seq<Call>,
    history: seq<Sessions.Event>, i: nat, j: nat, key: nat)
    requires SessionsRan(script, t, now, log, later, history) && i <= j <= |history|
    requires Sessions.NeverForgets(Sessions.End(t, history[..i]), history[i..j], key)
    ensures var from := |EpochsOf(log, key)| + |Sessions.Opened(t, history[..i], key)|;
            var upto := from + |Sessions.Opened(Sessions.End(t, history[..i]), history[i..j], key)|;
            upto <= |EpochsOf(later, key)| && Sessions.Rising(EpochsOf(later, key)[from..upto])
  {
    hide EpochsOf, RecordedAll, Sessions.Rising;
    Sessions.StretchRises(t, history, i, j, key);
    var before := EpochsOf(log, key) + Sessions.Opened(t, history[..i], key);
    var stretch := Sessions.Opened(Sessions.End(t, history[..i]), history[i..j], key);
    assert EpochsOf(later, key)[|before|..|before| + |stretch|] == stretch;
  }

  /** An epoch beyond all that a session was known by, none of whose streams or later ones the log shows
      granted since: its next packet is still to be answered with a request. */
  lemma StillAsks(
    script: seq<Request>, t: Sessions.Table, now: Sessions.Table, log: seq<Call>, later: seq<Call>,
    history: seq<Sessions.Event>, key: nat, epoch: nat)
    requires SessionsRan(script, t, now, log, later, history) && Sessions.Newer(t, key, epoch)
    requires |EpochsOf(log, key)| <= |EpochsOf(later, key)|
    requires forall i :: |EpochsOf(log, key)| <= i < |EpochsOf(later, key)| ==> EpochsOf(later, key)[i] < epoch
    ensures Sessions.Newer(now, key, epoch)
  {
    hide EpochsOf, RecordedAll;
    var since := Sessions.Opened(t, history, key);
    assert EpochsOf(later, key) == EpochsOf(log, key) + since;
    forall i | 0 <= i < |since| ensures since[i] < epoch {
      assert EpochsOf(later, key)[|EpochsOf(log, key)| + i] == since[i];
    }
    Sessions.StaysNewer(t, history, key, epoch);
  }

  lemma OnceInLog(clips: map<nat, Group>, realized: multiset<nat>, log: seq<Call>, bound: nat)
    requires OnceBelow(clips, realized, log, bound)
    ensures forall id: nat :: realized[id] <= 1
    ensures forall id: nat, layer: nat :: |RequestsFor(log, ClipOf(id, layer))| <= 1
  {
    hide RequestsFor;
  }

  lemma RanSoundly(service: AudioService, sound: SoundSystem)
    requires sound.Valid() && service.Joined(sound)
    ensures EveryVoiceKept(sound)
    ensures forall id: nat :: sound.realized[id] <= 1
    ensures forall id: nat, layer: nat :: |RequestsFor(sound.backend.log, ClipOf(id, layer))| <= 1
    ensures sound.backend.live == {} ==> forall h: Handle :: h < sound.backend.next ==> sound.backend.stopped[h] == 1
  {
    hide RequestsFor, OnceBelow;
    ValidKeepsVoices(sound);
    OnceInLog(sound.clips, sound.realized, sound.backend.log, service.Low());
  }

  lemma NothingAskedYet(bound: nat)
    ensures OnceBelow(map[], multiset{}, [], bound)
  {
  }

  /** Where runs start: nothing was asked for, and nothing is too loud. */
  method Start(laws: Laws, device: Device, listener: Listener) returns (service: AudioService, sound: SoundSystem)
    ensures fresh(service) && fresh(sound) && fresh(sound.backend) && sound.backend.device == device
    ensures sound.Valid() && service.Joined(sound) && sound.laws == laws
    ensures service.nextOccurrence == 0 && sound.realized == multiset{} && sound.backend.log == []
    ensures Authored(laws) ==> Loud(sound)
  {
    hide SoundSystem.Valid, OnceBelow, Authored, Within, NoLouder;
    var backend := new Backend(device);
    sound := new SoundSystem(laws, backend, listener);
    service := new AudioService();
    NothingAskedYet(0);
    NothingIsLoud(laws, sound.mix, backend.gains);
  }

  /** No run loses or doubles a voice, none asks the backend for a layer of a one-shot twice, each realizes
      exactly the occurrences its ledger says and is granted exactly the streams its history opens, and over
      an authored catalog no voice is ever louder than its source is audible. */
  method Play(service: AudioService, sound: SoundSystem, script: seq<Request>)
    returns (ghost history: seq<Sessions.Event>)
    requires sound.Valid() && service.Joined(sound) && service.nextOccurrence + |script| < COUNTER_END
    modifies service, sound, sound.backend, sound.backend.device
    ensures sound.Valid() && service.Joined(sound) && EveryVoiceKept(sound)
    ensures LedgerOf(service, sound) == AfterAll(old(LedgerOf(service, sound)), script)
    ensures Sound(old(LedgerOf(service, sound)))
    ensures forall id: nat :: sound.realized[id] <= 1
    ensures forall id: nat, layer: nat :: |RequestsFor(sound.backend.log, ClipOf(id, layer))| <= 1
    ensures old(Loud(sound)) ==> Loud(sound)
    ensures SessionsRan(script, old(sound.sessions), sound.sessions, old(sound.backend.log), sound.backend.log, history)
    ensures script != [] && script[|script| - 1].ChangeWorld? ==>
      forall h: Handle :: h < sound.backend.next ==> sound.backend.stopped[h] == 1
  {
    hide *;
    JoinedIsSound(service, sound);
    var i := 0;
    history := [];
    NothingRan(sound.sessions, sound.backend.log, LedgerOf(service, sound));
    assert script[..0] == [];
    while i < |script|
      invariant 0 <= i <= |script|
      invariant sound.Valid() && service.Joined(sound) && service.nextOccurrence + |script| - i < COUNTER_END
      invariant LedgerOf(service, sound) == AfterAll(old(LedgerOf(service, sound)), script[..i])
      invariant i > 0 && script[i - 1].ChangeWorld? ==> sound.backend.live == {}
      invariant old(Loud(sound)) ==> Loud(sound)
      invariant SessionsRan(script[..i], old(sound.sessions), sound.sessions, old(sound.backend.log),
                            sound.backend.log, history)
    {
      OneMoreRequest(old(LedgerOf(service, sound)), script, i);
      ghost var t, log := sound.sessions, sound.backend.log;
      ghost var e := Perform(service, sound, script[i]);
      SessionsRanOn(script[..i], old(sound.sessions), t, sound.sessions, old(sound.backend.log), log,
        sound.backend.log, history, script[i], e);
      assert script[..i] + [script[i]] == script[..i + 1];
      history := history + [e];
      i := i + 1;
    }
    assert script[..i] == script;
    RanSoundly(service, sound);
  }

  lemma OneMoreRequest(l: Ledger, script: seq<Request>, i: nat)
    requires i < |script|
    ensures AfterAll(l, script[..i + 1]) == After(AfterAll(l, script[..i]), script[i])
  {
    assert script[..i + 1][..i] == script[..i];
  }

  lemma JoinedIsSound(service: AudioService, sound: SoundSystem)
    requires service.Joined(sound)
    ensures Sound(LedgerOf(service, sound))
  {
    var journal := service.journal;
    if journal != [] {
      forall i | 0 <= i < |journal| ensures service.Low() <= journal[i].id < service.nextOccurrence {
      }
    }
  }
}
