/** The playback surface, as the mixer may rely on it: what it grants is the device's choice. */
module Backends {
  import opened Common
  import opened Voice
  import opened SoundState

  /** What a voice was asked for: a layer of a one-shot, of a loop or of a UI cue, or a session's stream. */
  datatype Origin =
    | ClipOf(id: nat, layer: nat)
    | EmitterOf(id: nat, layer: nat)
    | UiOf(draw: nat, layer: nat)
    | StreamOf(key: nat)

  /** What the mixer asked for, in order. */
  datatype Call =
    | PlayedClip(granted: Option<Handle>, clip: int, gain: real, looped: bool, origin: Origin)
    | RequestedStream(granted: Option<Handle>, session: nat, epoch: nat)
    | Updated(voice: Handle, gain: real)
    | Stopped(voice: Handle)
    | Offered(voice: Handle, packet: Packet, took: bool)

  function OriginOf(c: Call): Option<Origin> {
    match c
    case PlayedClip(_, _, _, _, origin) => Some(origin)
    case RequestedStream(_, session, _) => Some(StreamOf(session))
    case _ => None
  }

  /** The voices asked for on behalf of one origin, in order. */
  function RequestsFor(log: seq<Call>, o: Origin): seq<Call> {
    if log == [] then []
    else
      var last := log[|log| - 1];
      With(RequestsFor(log[..|log| - 1], o), if OriginOf(last) == Some(o) then Some(last) else None)
  }

  function With(calls: seq<Call>, c: Option<Call>): seq<Call> {
    match c
    case Some(call) => calls + [call]
    case None => calls
  }

  /** No voice was asked for in between. */
  ghost predicate SameRequests(was: seq<Call>, now: seq<Call>) {
    forall o :: RequestsFor(now, o) == RequestsFor(was, o)
  }

  /** The one call `c`, and no other request, in between. */
  ghost predicate OneRequest(was: seq<Call>, now: seq<Call>, c: Call) {
    forall o :: RequestsFor(now, o) == With(RequestsFor(was, o), if OriginOf(c) == Some(o) then Some(c) else None)
  }

  lemma OneMoreCall(log: seq<Call>, c: Call)
    ensures OneRequest(log, log + [c], c)
    ensures OriginOf(c).None? ==> SameRequests(log, log + [c])
  {
    assert (log + [c])[..|log|] == log;
  }

  /** Every voice granted is live or was stopped, once. */
  ghost predicate StoppedOnce(stopped: multiset<Handle>, next: Handle, live: set<Handle>) {
    forall h: Handle :: stopped[h] == if h < next && h !in live then 1 else 0
  }

  lemma Minted(stopped: multiset<Handle>, next: Handle, live: set<Handle>)
    requires StoppedOnce(stopped, next, live) && forall h :: h in live ==> h < next
    ensures StoppedOnce(stopped, next + 1, live + {next})
  {
  }

  /** Whether the device can produce sound. The flag is its own object: it may be flipped between any
      two requests to the mixer, and no request to the mixer flips it. */
  class Device {
    var up: bool

    constructor (up: bool)
      ensures this.up == up
    {
      this.up := up;
    }

    method SetAlive(up: bool)
      modifies this
      ensures this.up == up
    {
      this.up := up;
    }
  }

  class Backend {
    const device: Device
    /** Handles are minted in order and never reused. */
    var next: Handle
    ghost var live: set<Handle>
    /** The gain each live voice was last given. */
    ghost var gains: map<Handle, real>
    /** The session and epoch each stream was opened for, and the packets it was fed. */
    ghost var streams: map<Handle, (nat, nat)>
    ghost var feeds: map<Handle, seq<Packet>>
    ghost var log: seq<Call>
    /** How often each handle was stopped. */
    ghost var stopped: multiset<Handle>

    ghost predicate Valid()
      reads this
    {
      && (forall h :: h in live ==> h < next)
      && StoppedOnce(stopped, next, live)
      && gains.Keys == live
      && (forall h :: h in streams ==> h < next && h in feeds)
      && (forall h :: h in feeds ==> h in streams)
      && (forall h :: h in feeds ==> FedOwnEpoch(feeds[h], streams[h]))
    }

    constructor (device: Device)
      ensures Valid() && this.device == device && live == {} && log == []
    {
      this.device := device;
      next := 0;
      live, gains, streams, feeds, log, stopped := {}, map[], map[], map[], [], multiset{};
    }

    /** A fresh live voice, or nothing; nothing without a device. */
    method PlayClip(clip: int, gain: real, looped: bool, ghost origin: Origin) returns (v: Option<Handle>)
      requires Valid()
      modifies this
      ensures Valid() && (v.Some? ==> device.up)
      ensures v.Some? ==> v.value >= old(next) && v.value !in old(live)
      ensures live == old(live) + (if v.Some? then {v.value} else {})
      ensures gains == if v.Some? then old(gains)[v.value := gain] else old(gains)
      ensures streams == old(streams) && feeds == old(feeds) && next >= old(next)
      ensures log == old(log) + [PlayedClip(v, clip, gain, looped, origin)]
    {
      hide StoppedOnce, FedOwnEpoch;
      var granted: bool := *;
      v := None;
      if granted && device.up {
        Minted(stopped, next, live);
        v := Some(next);
        live, gains := live + {next}, gains[next := gain];
        next := next + 1;
      }
      log := log + [PlayedClip(v, clip, gain, looped, origin)];
    }

    /** A stream for a session's epoch, opened muted. */
    method PlayStream(session: nat, epoch: nat) returns (v: Option<Handle>)
      requires Valid()
      modifies this
      ensures Valid() && (v.Some? ==> device.up)
      ensures v.Some? ==> v.value >= old(next) && v.value !in old(live) && v.value !in old(streams)
      ensures live == old(live) + (if v.Some? then {v.value} else {})
      ensures gains == if v.Some? then old(gains)[v.value := 0.0] else old(gains)
      ensures streams == if v.Some? then old(streams)[v.value := (session, epoch)] else old(streams)
      ensures feeds == if v.Some? then old(feeds)[v.value := []] else old(feeds)
      ensures log == old(log) + [RequestedStream(v, session, epoch)] && next >= old(next)
    {
      hide StoppedOnce, FedOwnEpoch;
      var granted: bool := *;
      v := None;
      if granted && device.up {
        Minted(stopped, next, live);
        v := Some(next);
        live, gains := live + {next}, gains[next := 0.0];
        NothingFed((session, epoch));
        streams, feeds := streams[next := (session, epoch)], feeds[next := []];
        next := next + 1;
      }
      log := log + [RequestedStream(v, session, epoch)];
    }

    /** Push a packet of the stream's own session and epoch. A full queue drops it. */
    method Feed(v: Handle, p: Packet) returns (took: bool)
      requires Valid() && v in live && v in streams && streams[v] == (p.session, p.epoch)
      modifies this`feeds, this`log
      ensures Valid() && log == old(log) + [Offered(v, p, took)] && SameRequests(old(log), log)
      ensures feeds == if took then old(feeds)[v := old(feeds)[v] + [p]] else old(feeds)
    {
      took := *;
      OneMoreCall(log, Offered(v, p, took));
      if took {
        feeds := feeds[v := feeds[v] + [p]];
      }
      log := log + [Offered(v, p, took)];
    }

    /** The first packet of a new stream: its queue is empty, so it is never dropped. */
    method Seed(v: Handle, p: Packet)
      requires Valid() && v in live && v in feeds && streams[v] == (p.session, p.epoch) && feeds[v] == []
      modifies this`feeds
      ensures Valid() && feeds == old(feeds)[v := [p]]
    {
      feeds := feeds[v := [p]];
    }

    /** Only a live voice is updated or stopped. */
    method Update(v: Handle, gain: real)
      requires Valid() && v in live
      modifies this`gains, this`log
      ensures Valid() && gains == old(gains)[v := gain] && log == old(log) + [Updated(v, gain)]
      ensures SameRequests(old(log), log)
    {
      OneMoreCall(log, Updated(v, gain));
      gains := gains[v := gain];
      log := log + [Updated(v, gain)];
    }

    method Stop(v: Handle)
      requires Valid() && v in live
      modifies this`live, this`gains, this`stopped, this`log
      ensures Valid() && live == old(live) - {v} && gains == old(gains) - {v} && log == old(log) + [Stopped(v)]
      ensures SameRequests(old(log), log)
    {
      OneMoreCall(log, Stopped(v));
      live, gains, stopped := live - {v}, gains - {v}, stopped + multiset{v};
      log := log + [Stopped(v)];
    }

    method Alive() returns (b: bool)
      ensures b == device.up
    {
      b := device.up;
    }
  }

  lemma NothingFed(stream: (nat, nat))
    ensures FedOwnEpoch([], stream)
  {
  }

  ghost predicate FedOwnEpoch(feed: seq<Packet>, stream: (nat, nat)) {
    forall i :: 0 <= i < |feed| ==> (feed[i].session, feed[i].epoch) == stream
  }
}
