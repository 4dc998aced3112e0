/** The voice jitter buffer: packets in, one playout decision out per 20 ms frame. */
module Voice {
  import opened Common
  import opened Serial

  const VOICE_FRAME_MS := 20
  const JITTER_REORDER_WINDOW := 4
  const JITTER_STALE_WINDOW := 100
  const PLC_MAX_CONSECUTIVE := 5

  datatype Packet = Packet(session: nat, epoch: nat, num: Seq, payload: seq<int>)

  datatype Step = Decode(payload: seq<int>) | Conceal | Silence | Finished

  datatype PushOutcome = Buffered | Duplicate | Stale

  /** The value of a `JitterBuffer`. */
  datatype Playout = Playout(
    buffer: seq<Packet>,
    head: Option<Seq>,
    started: bool,
    conceals: nat,
    target: nat,
    starved: bool)
  {
    ghost predicate Valid() {
      && (started <==> head.Some?)
      && conceals <= PLC_MAX_CONSECUTIVE
      && target >= 1
      && Distinct(buffer)
    }
  }

  ghost predicate Distinct(b: seq<Packet>) {
    forall i, j :: 0 <= i < j < |b| ==> b[i].num != b[j].num
  }

  // ----- the transition, as functions of the value -----

  predicate Holds(b: seq<Packet>, s: Seq) {
    exists i :: 0 <= i < |b| && b[i].num == s
  }

  /** What `retain` leaves: a packet strictly behind the head goes, up to half a circle. */
  predicate Keeps(p: Packet, play: Seq) {
    var behind := AheadOf(play, p.num);
    behind == 0 || behind >= HALF
  }

  function Kept(b: seq<Packet>, play: Seq): seq<Packet> {
    if b == [] then []
    else
      var rest := Kept(b[..|b| - 1], play);
      if Keeps(b[|b| - 1], play) then rest + [b[|b| - 1]] else rest
  }

  /** The fold of `oldest_seq`: the accumulator gives way to a packet it is newer than. */
  function Oldest(b: seq<Packet>): Seq
    requires b != []
  {
    if |b| == 1 then b[0].num
    else
      var acc := Oldest(b[..|b| - 1]);
      var s := b[|b| - 1].num;
      if NewerThan(acc, s) then s else acc
  }

  /** The first buffered packet numbered `s`. */
  function Find(b: seq<Packet>, s: Seq): (p: Packet)
    requires Holds(b, s)
    ensures p in b && p.num == s
  {
    if b[0].num == s then b[0] else
      assert Holds(b[1..], s) by {
        var i :| 0 <= i < |b| && b[i].num == s;
        assert b[1..][i - 1].num == s;
      }
      Find(b[1..], s)
  }

  function PushOutcomeOf(s: Playout, p: Packet): PushOutcome {
    if s.head.Some? && (AheadOf(p.num, s.head.value) >= HALF || AheadOf(p.num, s.head.value) > JITTER_STALE_WINDOW)
    then Stale
    else if Holds(s.buffer, p.num) then Duplicate
    else Buffered
  }

  function AfterPush(s: Playout, p: Packet): Playout {
    if PushOutcomeOf(s, p).Buffered? then s.(buffer := s.buffer + [p]) else s
  }

  /** `s` with the played packets reclaimed and, when the prefill is met, the head put down. */
  function Prepared(s: Playout, abandoned: bool): Playout {
    var t := if s.head.Some? then s.(buffer := Kept(s.buffer, s.head.value)) else s;
    if !t.started && (|t.buffer| >= t.target || (abandoned && t.buffer != [])) && t.buffer != []
    then t.(head := Some(Oldest(t.buffer)), started := true)
    else t
  }

  /** One pull from a prepared state. */
  function Play(t: Playout, abandoned: bool): (Playout, Step) {
    if !t.started || t.head.None? then
      (t, if abandoned then Finished else Silence)
    else
      var play := t.head.value;
      if Holds(t.buffer, play) then
        (t.(head := Some(Next(play)), conceals := 0), Decode(Find(t.buffer, play).payload))
      else if t.buffer == [] then
        if abandoned then (t, Finished)
        else if t.conceals < PLC_MAX_CONSECUTIVE then
          (t.(conceals := t.conceals + 1, head := Some(Next(play))), Conceal)
        else
          (t.(started := false, head := None, conceals := 0, starved := true), Silence)
      else if t.conceals < PLC_MAX_CONSECUTIVE then
        (t.(conceals := t.conceals + 1, head := Some(Next(play))), Conceal)
      else
        (t.(starved := true, head := Some(Next(play))), Silence)
  }

  function AfterPull(s: Playout, abandoned: bool): (Playout, Step) {
    Play(Prepared(s, abandoned), abandoned)
  }

  // ----- small facts -----

  lemma {:induction false} KeptMembers(b: seq<Packet>, play: Seq)
    ensures forall p :: p in Kept(b, play) <==> p in b && Keeps(p, play)
    ensures |Kept(b, play)| <= |b|
  {
    if b != [] {
      KeptMembers(b[..|b| - 1], play);
      assert b == b[..|b| - 1] + [b[|b| - 1]];
    }
  }

  lemma {:induction false} KeptDistinct(b: seq<Packet>, play: Seq)
    requires Distinct(b)
    ensures Distinct(Kept(b, play))
  {
    if b != [] {
      var init := b[..|b| - 1];
      KeptDistinct(init, play);
      KeptMembers(init, play);
      var k := Kept(b, play);
      forall i, j | 0 <= i < j < |k| ensures k[i].num != k[j].num {
        if j == |Kept(init, play)| {
          assert k[i] in Kept(init, play);
        }
      }
    }
  }

  lemma KeepsIsNear(p: Packet, play: Seq)
    ensures Keeps(p, play) <==> AheadOf(p.num, play) <= HALF
  {
  }

  lemma FindIs(b: seq<Packet>, p: Packet)
    requires Distinct(b) && p in b
    ensures Holds(b, p.num) && Find(b, p.num) == p
  {
    var i :| 0 <= i < |b| && b[i] == p;
    assert b[i].num == p.num;
    var q := Find(b, p.num);
    var j :| 0 <= j < |b| && b[j] == q;
  }

  lemma {:induction false} OldestIsHeld(b: seq<Packet>)
    requires b != []
    ensures Holds(b, Oldest(b))
  {
    if |b| == 1 {
      assert b[0].num == Oldest(b);
    } else {
      OldestIsHeld(b[..|b| - 1]);
      var i :| 0 <= i < |b| - 1 && b[..|b| - 1][i].num == Oldest(b[..|b| - 1]);
      assert b[i].num == Oldest(b[..|b| - 1]) && b[|b| - 1].num == b[|b| - 1].num;
    }
  }

  lemma PushKeepsValid(s: Playout, p: Packet)
    requires s.Valid()
    ensures AfterPush(s, p).Valid()
  {
  }

  lemma PreparedKeepsValid(s: Playout, abandoned: bool)
    requires s.Valid()
    ensures Prepared(s, abandoned).Valid()
    ensures s.started ==> Prepared(s, abandoned) == s.(buffer := Kept(s.buffer, s.head.value))
  {
    if s.head.Some? {
      KeptDistinct(s.buffer, s.head.value);
    }
  }

  lemma PullKeepsValid(s: Playout, abandoned: bool)
    requires s.Valid()
    ensures AfterPull(s, abandoned).0.Valid()
  {
    PreparedKeepsValid(s, abandoned);
  }

  // ----- the buffer itself -----

  class JitterBuffer {
    var buffer: seq<Packet>
    var playSeq: Option<Seq>
    var started: bool
    var consecutiveConceal: nat
    var targetFrames: nat
    var starved: bool

    ghost function View(): Playout
      reads this
    {
      Playout(buffer, playSeq, started, consecutiveConceal, targetFrames, starved)
    }

    ghost predicate Valid()
      reads this
    {
      View().Valid()
    }

    constructor (jitterTargetMs: nat)
      ensures Valid()
      ensures buffer == [] && !started && consecutiveConceal == 0 && !starved
      ensures targetFrames >= JITTER_REORDER_WINDOW && targetFrames >= jitterTargetMs / VOICE_FRAME_MS
      ensures targetFrames == JITTER_REORDER_WINDOW || targetFrames == jitterTargetMs / VOICE_FRAME_MS
    {
      var frames := jitterTargetMs / VOICE_FRAME_MS;
      frames := if frames < JITTER_REORDER_WINDOW then JITTER_REORDER_WINDOW else frames;
      frames := if frames < 1 then 1 else frames;
      buffer := [];
      playSeq := None;
      started := false;
      consecutiveConceal := 0;
      targetFrames := frames;
      starved := false;
    }

    method TakeStarved() returns (was: bool)
      requires Valid()
      modifies this`starved
      ensures Valid() && was == old(starved) && !starved
    {
      was := starved;
      starved := false;
    }

    method Position(s: Seq) returns (at: nat)
      ensures at <= |buffer|
      ensures at < |buffer| ==> buffer[at].num == s
      ensures forall i :: 0 <= i < at ==> buffer[i].num != s
    {
      at := 0;
      while at < |buffer| && buffer[at].num != s
        invariant at <= |buffer|
        invariant forall i :: 0 <= i < at ==> buffer[i].num != s
      {
        at := at + 1;
      }
    }

    method Push(p: Packet) returns (outcome: PushOutcome)
      requires Valid()
      modifies this
      ensures Valid()
      ensures outcome == PushOutcomeOf(old(View()), p)
      ensures View() == AfterPush(old(View()), p)
    {
      PushKeepsValid(View(), p);
      if playSeq.Some? {
        var ahead := AheadOf(p.num, playSeq.value);
        if ahead >= HALF {
          return Stale;
        }
        if ahead > JITTER_STALE_WINDOW {
          return Stale;
        }
      }
      var at := Position(p.num);
      if at < |buffer| {
        return Duplicate;
      }
      buffer := buffer + [p];
      return Buffered;
    }

    /** `retain`: drop what lies strictly behind the head. */
    method Retain(play: Seq)
      modifies this`buffer
      ensures buffer == Kept(old(buffer), play)
    {
      var kept: seq<Packet> := [];
      var i := 0;
      while i < |buffer|
        invariant 0 <= i <= |buffer| && buffer == old(buffer)
        invariant kept == Kept(buffer[..i], play)
      {
        assert buffer[..i + 1][..i] == buffer[..i];
        var behind := AheadOf(play, buffer[i].num);
        if behind == 0 || behind >= HALF {
          kept := kept + [buffer[i]];
        }
        i := i + 1;
      }
      assert buffer[..i] == buffer;
      buffer := kept;
    }

    method OldestSeq() returns (r: Option<Seq>)
      ensures r == if buffer == [] then None else Some(Oldest(buffer))
    {
      if |buffer| == 0 {
        return None;
      }
      var acc := buffer[0].num;
      var i := 1;
      while i < |buffer|
        invariant 1 <= i <= |buffer|
        invariant acc == Oldest(buffer[..i])
      {
        assert buffer[..i + 1][..i] == buffer[..i];
        var s := buffer[i].num;
        acc := if NewerThan(acc, s) then s else acc;
        i := i + 1;
      }
      assert buffer[..i] == buffer;
      r := Some(acc);
    }

    method Pull(abandoned: bool) returns (step: Step)
      requires Valid()
      modifies this
      ensures Valid()
      ensures (View(), step) == AfterPull(old(View()), abandoned)
    {
      PullKeepsValid(View(), abandoned);
      if playSeq.Some? {
        Retain(playSeq.value);
      }
      if !started {
        var filled := |buffer| >= targetFrames;
        if filled || (abandoned && |buffer| > 0) {
          playSeq := OldestSeq();
          started := true;
        } else if abandoned {
          return Finished;
        } else {
          return Silence;
        }
      }
      assert View() == Prepared(old(View()), abandoned);
      label Ready:
      var play := playSeq.value;
      var idx := Position(play);
      if idx < |buffer| {
        FindFirst(buffer, idx);
        playSeq := Some(Next(play));
        consecutiveConceal := 0;
        assert (View(), Decode(buffer[idx].payload)) == Play(old@Ready(View()), abandoned);
        return Decode(buffer[idx].payload);
      }
      assert !Holds(buffer, play);
      if |buffer| == 0 {
        if abandoned {
          return Finished;
        }
        if consecutiveConceal < PLC_MAX_CONSECUTIVE {
          consecutiveConceal := consecutiveConceal + 1;
          playSeq := Some(Next(play));
          return Conceal;
        }
        started := false;
        playSeq := None;
        consecutiveConceal := 0;
        starved := true;
        return Silence;
      }
      playSeq := Some(Next(play));
      if consecutiveConceal < PLC_MAX_CONSECUTIVE {
        consecutiveConceal := consecutiveConceal + 1;
        step := Conceal;
      } else {
        starved := true;
        step := Silence;
      }
    }
  }

  lemma FindFirst(b: seq<Packet>, idx: nat)
    requires idx < |b| && forall i :: 0 <= i < idx ==> b[i].num != b[idx].num
    ensures Holds(b, b[idx].num) && Find(b, b[idx].num) == b[idx]
  {
    if idx > 0 {
      assert b[1..][idx - 1] == b[idx];
      FindFirst(b[1..], idx - 1);
    }
  }
}
