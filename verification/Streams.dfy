/** What the requests of a run do to the backend's log: one-shots, and the streams granted to a session. */
module Streams {
  import opened Common
  import opened Voice
  import opened SoundState
  import opened Backends
  import opened SoundSystems
  import opened Services
  import Sessions

  /** The epochs of the streams that were granted, in order. */
  function GrantedEpochs(calls: seq<Call>): seq<nat> {
    if calls == [] then []
    else
      var c := calls[|calls| - 1];
      GrantedEpochs(calls[..|calls| - 1]) + (if c.RequestedStream? && c.granted.Some? then [c.epoch] else [])
  }

  /** The epochs of the streams ever granted to a session. */
  function EpochsOf(log: seq<Call>, key: nat): seq<nat> {
    GrantedEpochs(RequestsFor(log, StreamOf(key)))
  }

  /** The log gained exactly the streams the event opens. */
  ghost predicate OpenedBy(log: seq<Call>, later: seq<Call>, t: Sessions.Table, e: Sessions.Event) {
    forall key: nat :: EpochsOf(later, key) == EpochsOf(log, key) + Sessions.NewStream(t, e, key)
  }

  lemma OpensNone(log: seq<Call>, later: seq<Call>, t: Sessions.Table, e: Sessions.Event)
    requires StreamsSame(log, later) && !e.Ingest?
    ensures OpenedBy(log, later, t, e)
  {
    hide RequestsFor, GrantedEpochs;
  }

  lemma SameAsks(log: seq<Call>, later: seq<Call>)
    requires SameRequests(log, later)
    ensures SameClips(log, later) && StreamsSame(log, later)
  {
    hide RequestsFor;
  }

  lemma {:induction false} UiAsks(log: seq<Call>, calls: seq<Call>)
    requires forall i :: 0 <= i < |calls| ==> calls[i].PlayedClip? && calls[i].origin.UiOf?
    ensures SameClips(log, log + calls) && StreamsSame(log, log + calls)
  {
    hide RequestsFor;
    if calls == [] {
      assert log + calls == log;
    } else {
      var n := |calls| - 1;
      UiAsks(log, calls[..n]);
      assert log + calls == log + calls[..n] + [calls[n]];
      OneMoreCall(log + calls[..n], calls[n]);
    }
  }

  lemma GrantedMore(calls: seq<Call>, c: Call)
    ensures GrantedEpochs(calls + [c])
         == GrantedEpochs(calls) + (if c.RequestedStream? && c.granted.Some? then [c.epoch] else [])
  {
    assert (calls + [c])[..|calls|] == calls;
  }

  /** The epoch of the stream a request is granted for a session, if any. */
  function Granting(c: Call, key: nat): seq<nat> {
    if c.RequestedStream? && c.granted.Some? && c.session == key then [c.epoch] else []
  }

  /** One request for a stream: it is its session's, and no one-shot's. */
  lemma OneStreamAsked(log: seq<Call>, c: Call)
    requires c.RequestedStream?
    ensures SameClips(log, log + [c])
    ensures forall key: nat :: EpochsOf(log + [c], key) == EpochsOf(log, key) + Granting(c, key)
  {
    hide RequestsFor, GrantedEpochs;
    OneMoreCall(log, c);
    forall key: nat ensures EpochsOf(log + [c], key) == EpochsOf(log, key) + Granting(c, key) {
      GrantedMore(RequestsFor(log, StreamOf(key)), c);
    }
  }

  /** A packet turned away or fed asks for nothing; any other adds its one request to the log. */
  lemma StreamAsked(
    log: seq<Call>, later: seq<Call>, t: Sessions.Table, now: Sessions.Table, pkt: Packet, grant: Option<Handle>,
    took: bool, up: bool)
    requires PacketAnswered(t, now, log, later, pkt, grant, took, up)
    ensures SameClips(log, later) && OpenedBy(log, later, t, Sessions.Ingest(pkt.session, pkt.epoch, grant))
  {
    hide RequestsFor, GrantedEpochs;
    var key := pkt.session;
    if Sessions.Newer(t, key, pkt.epoch) {
      var before := log + (if key in t && t[key].Streaming? then [Stopped(t[key].voice)] else []);
      if before != log {
        OneMoreCall(log, Stopped(t[key].voice));
      }
      if up {
        OneStreamAsked(before, RequestedStream(grant, key, pkt.epoch));
      } else {
        assert later == before;
      }
    } else if later != log {
      OneMoreCall(log, Offered(t[key].voice, pkt, took));
    }
  }
}
