/** What a jitter buffer promises over whole runs of pushes and pulls. */
module VoiceRuns {
  import opened Common
  import opened Serial
  import opened Voice

  datatype Event = Push(packet: Packet) | Pull(abandoned: bool)

  function After(s: Playout, e: Event): Playout {
    match e
    case Push(p) => AfterPush(s, p)
    case Pull(a) => AfterPull(s, a).0
  }

  function Run(s: Playout, es: seq<Event>): Playout
    decreases |es|
  {
    if es == [] then s else Run(After(s, es[0]), es[1..])
  }

  function Pulls(es: seq<Event>): nat {
    if es == [] then 0 else (if es[0].Pull? then 1 else 0) + Pulls(es[1..])
  }

  /** The decisions the pulls of a run give out, in order. */
  function Steps(s: Playout, es: seq<Event>): seq<Step>
    decreases |es|
  {
    if es == [] then []
    else (if es[0].Pull? then [AfterPull(s, es[0].abandoned).1] else []) + Steps(After(s, es[0]), es[1..])
  }

  /** The sequence numbers a run decodes, in order. */
  function Decoded(s: Playout, es: seq<Event>): seq<Seq>
    decreases |es|
  {
    if es == [] then []
    else
      (if es[0].Pull? && AfterPull(s, es[0].abandoned).1.Decode? && Prepared(s, es[0].abandoned).head.Some?
       then [Prepared(s, es[0].abandoned).head.value] else [])
      + Decoded(After(s, es[0]), es[1..])
  }

  /** The pulls of a run that were not answered `Finished`. */
  function Advances(s: Playout, es: seq<Event>): nat
    decreases |es|
  {
    if es == [] then 0
    else
      (if es[0].Pull? && !AfterPull(s, es[0].abandoned).1.Finished? then 1 else 0)
      + Advances(After(s, es[0]), es[1..])
  }

  /** A run within one playout: started, and never reset to prebuffering. */
  predicate Episode(s: Playout, es: seq<Event>)
    decreases |es|
  {
    s.started && (es == [] || Episode(After(s, es[0]), es[1..]))
  }

  lemma AfterKeepsValid(s: Playout, e: Event)
    requires s.Valid()
    ensures After(s, e).Valid()
  {
    match e
    case Push(p) => PushKeepsValid(s, p);
    case Pull(a) => PullKeepsValid(s, a);
  }

  lemma {:induction false} RunKeepsValid(s: Playout, es: seq<Event>)
    requires s.Valid()
    ensures Run(s, es).Valid()
    decreases |es|
  {
    if es != [] {
      AfterKeepsValid(s, es[0]);
      RunKeepsValid(After(s, es[0]), es[1..]);
    }
  }

  // ----- one pull of a started buffer -----

  /** A started pull decodes exactly when the head's number is buffered, and then that packet. */
  lemma PullDecodesTheHead(s: Playout, a: bool)
    requires s.Valid() && s.started
    ensures AfterPull(s, a).1.Decode? <==> Holds(s.buffer, s.head.value)
    ensures forall p :: p in s.buffer && p.num == s.head.value ==> AfterPull(s, a).1 == Decode(p.payload)
  {
    var h := s.head.value;
    var k := Kept(s.buffer, h);
    PreparedKeepsValid(s, a);
    KeptMembers(s.buffer, h);
    if Holds(s.buffer, h) {
      FindIs(s.buffer, Find(s.buffer, h));
      FindIs(k, Find(s.buffer, h));
    }
    if Holds(k, h) {
      var q := Find(k, h);
      FindIs(s.buffer, q);
    }
    forall p | p in s.buffer && p.num == h ensures AfterPull(s, a).1 == Decode(p.payload) {
      FindIs(k, p);
    }
  }

  /** A started pull with something still ahead moves the head one step, whatever it decides,
      and keeps every packet up to half a circle ahead; the others leave the buffer for good. */
  lemma PullAdvances(s: Playout, a: bool, p: Packet)
    requires s.Valid() && s.started && p in s.buffer
    requires AheadOf(p.num, s.head.value) <= HALF
    ensures var t := AfterPull(s, a).0;
            t.Valid() && t.started && t.head == Some(Next(s.head.value)) && p in t.buffer
            && !AfterPull(s, a).1.Finished?
  {
    PreparedKeepsValid(s, a);
    PullKeepsValid(s, a);
    KeptMembers(s.buffer, s.head.value);
    KeepsIsNear(p, s.head.value);
  }

  /** A packet more than half a circle ahead of the head is dropped by the next pull undecoded. */
  lemma FarPacketIsDropped(s: Playout, a: bool, p: Packet)
    requires s.Valid() && s.started && p in s.buffer
    requires AheadOf(p.num, s.head.value) > HALF
    ensures !Holds(AfterPull(s, a).0.buffer, p.num) && s.head.value != p.num
  {
    PreparedKeepsValid(s, a);
    KeptMembers(s.buffer, s.head.value);
    KeepsIsNear(p, s.head.value);
    if Holds(AfterPull(s, a).0.buffer, p.num) {
      var q := Find(AfterPull(s, a).0.buffer, p.num);
      FindIs(s.buffer, p);
      FindIs(s.buffer, q);
    }
  }

  // ----- every accepted packet plays in its own slot -----

  /** In any interleaving of pushes and pulls, a buffered packet `d` steps ahead of the head is
      decoded by the d-th next pull: no push, gap, concealment or abandonment before it moves it. */
  lemma {:induction false} PlaysInItsSlot(s: Playout, p: Packet, es: seq<Event>, a: bool)
    requires s.Valid() && s.started && p in s.buffer
    requires AheadOf(p.num, s.head.value) <= HALF
    requires Pulls(es) == AheadOf(p.num, s.head.value)
    ensures var t := Run(s, es);
            t.started && t.head == Some(p.num) && AfterPull(t, a).1 == Decode(p.payload)
    decreases |es|
  {
    if es == [] {
      PullDecodesTheHead(s, a);
    } else {
      AfterKeepsValid(s, es[0]);
      if es[0].Pull? {
        PullAdvances(s, es[0].abandoned, p);
        StepNearer(p.num, s.head.value);
      }
      PlaysInItsSlot(After(s, es[0]), p, es[1..], a);
    }
  }

  /** A push that a started buffer accepts is always played, at the pull its number names. */
  lemma AcceptedPushPlays(s: Playout, p: Packet, es: seq<Event>, a: bool)
    requires s.Valid() && s.started
    requires PushOutcomeOf(s, p).Buffered?
    requires Pulls(es) == AheadOf(p.num, s.head.value)
    ensures AfterPull(Run(AfterPush(s, p), es), a).1 == Decode(p.payload)
    ensures Pulls(es) <= JITTER_STALE_WINDOW
  {
    PushKeepsValid(s, p);
    PlaysInItsSlot(AfterPush(s, p), p, es, a);
  }

  // ----- playout order -----

  lemma PullInEpisode(s: Playout, a: bool)
    requires s.Valid() && s.started
    ensures Prepared(s, a).head == s.head
    ensures AfterPull(s, a).0.started ==>
              AfterPull(s, a).0.head == if AfterPull(s, a).1.Finished? then s.head else Some(Next(s.head.value))
  {
    PreparedKeepsValid(s, a);
  }

  lemma PushInEpisode(s: Playout, p: Packet)
    ensures AfterPush(s, p).started == s.started && AfterPush(s, p).head == s.head
  {
  }

  /** One event of an episode, as the counts of the whole run see it. */
  lemma EpisodeStep(s: Playout, es: seq<Event>)
    requires s.Valid() && es != [] && Episode(s, es)
    ensures var s1, h := After(s, es[0]), s.head.value;
            && s1.Valid() && Episode(s1, es[1..])
            && h != Next(h)
            && (s1.head == Some(h) || s1.head == Some(Next(h)))
            && Advances(s, es) == (if s1.head == Some(h) then 0 else 1) + Advances(s1, es[1..])
            && (Decoded(s, es) == Decoded(s1, es[1..])
                || (s1.head == Some(Next(h)) && Decoded(s, es) == [h] + Decoded(s1, es[1..])))
  {
    hide AfterPull, AfterPush, Prepared;
    AfterKeepsValid(s, es[0]);
    var s1, h := After(s, es[0]), s.head.value;
    match es[0]
    case Push(p) =>
      PushInEpisode(s, p);
      assert Decoded(s, es) == Decoded(s1, es[1..]);
    case Pull(a) =>
      PullInEpisode(s, a);
      if AfterPull(s, a).1.Decode? {
        assert Decoded(s, es) == [h] + Decoded(s1, es[1..]);
      } else {
        assert Decoded(s, es) == Decoded(s1, es[1..]);
      }
  }

  /** Within a playout the head is the starting number plus the pulls played since. */
  lemma {:induction false} HeadCountsPulls(s: Playout, es: seq<Event>)
    requires s.Valid() && Episode(s, es)
    ensures Run(s, es).started && Run(s, es).head == Some(Plus(s.head.value, Advances(s, es)))
    decreases |es|
  {
    hide AfterPull, AfterPush, After, Plus, Next, Decoded;
    var h := s.head.value;
    if es == [] {
      PlusNone(h);
      assert Advances(s, es) == 0 && Run(s, es) == s;
    } else {
      EpisodeStep(s, es);
      var s1 := After(s, es[0]);
      HeadCountsPulls(s1, es[1..]);
      assert Run(s, es) == Run(s1, es[1..]);
      PlusNext(h, Advances(s1, es[1..]));
    }
  }

  /** `d` is in order and within `n` steps of `h`. */
  ghost predicate Ascending(d: seq<Seq>, h: Seq, n: nat) {
    && (forall i :: 0 <= i < |d| ==> AheadOf(d[i], h) < n)
    && (forall i, j :: 0 <= i < j < |d| ==> AheadOf(d[i], h) < AheadOf(d[j], h))
  }

  lemma AscendingFromNext(d: seq<Seq>, h: Seq, n: nat)
    requires Ascending(d, Next(h), n) && n < HALF
    ensures Ascending(d, h, n + 1) && Ascending([h] + d, h, n + 1)
  {
    forall i | 0 <= i < |d| ensures AheadOf(d[i], h) == AheadOf(d[i], Next(h)) + 1 {
      StepNearer(d[i], h);
    }
  }

  lemma AscendingStep(d: seq<Seq>, h: Seq, n: nat, d': seq<Seq>, h': Seq, n': nat)
    requires Ascending(d', h', n') && n <= HALF
    requires (h' == h && n == n') || (h' == Next(h) && n == n' + 1)
    requires d == d' || (h' == Next(h) && d == [h] + d' && n == n' + 1)
    ensures Ascending(d, h, n)
  {
    if h' == Next(h) && n == n' + 1 {
      AscendingFromNext(d', h, n');
    }
  }

  lemma {:induction false} DecodedDistances(s: Playout, es: seq<Event>)
    requires s.Valid() && Episode(s, es) && Advances(s, es) <= HALF
    ensures Ascending(Decoded(s, es), s.head.value, Advances(s, es))
    decreases |es|
  {
    if es != [] {
      hide After, Ascending, AheadOf;
      EpisodeStep(s, es);
      var s1, h := After(s, es[0]), s.head.value;
      DecodedDistances(s1, es[1..]);
      AscendingStep(Decoded(s, es), h, Advances(s, es),
                    Decoded(s1, es[1..]), s1.head.value, Advances(s1, es[1..]));
    }
  }

  /** Within a playout of at most 2^31 pulls, every number decoded is serially newer than every
      number decoded before it: playout is in order and nothing is decoded twice. */
  lemma DecodesInSerialOrder(s: Playout, es: seq<Event>)
    requires s.Valid() && Episode(s, es) && Advances(s, es) <= HALF
    ensures var d := Decoded(s, es);
            forall i, j :: 0 <= i < j < |d| ==> NewerThan(d[j], d[i])
  {
    DecodedDistances(s, es);
    var d := Decoded(s, es);
    forall i, j | 0 <= i < j < |d| ensures NewerThan(d[j], d[i]) {
      NewerIsFurther(d[j], d[i], s.head.value);
    }
  }

  // ----- where playout starts -----

  /** When every buffered number lies less than half a circle ahead of one of them, that one is
      chosen as the head, in whatever order the packets arrived. */
  lemma {:induction false} OldestIsFirst(b: seq<Packet>, base: Seq)
    requires b != []
    requires forall p :: p in b ==> AheadOf(p.num, base) < HALF
    ensures Holds(b, Oldest(b))
    ensures forall p :: p in b ==> AheadOf(Oldest(b), base) <= AheadOf(p.num, base)
  {
    OldestIsHeld(b);
    if |b| > 1 {
      var init, last := b[..|b| - 1], b[|b| - 1];
      assert b == init + [last];
      OldestIsFirst(init, base);
      var acc := Oldest(init);
      var i :| 0 <= i < |init| && init[i].num == acc;
      assert init[i] in b;
      NewerIsFurther(acc, last.num, base);
    }
  }

  // ----- draining -----

  /** How far ahead of `h` the buffered packets at most `lim` ahead of it reach, plus one. */
  function Reach(b: seq<Packet>, h: Seq, lim: nat): nat {
    if b == [] then 0
    else
      var rest := Reach(b[..|b| - 1], h, lim);
      var d := AheadOf(b[|b| - 1].num, h);
      if d <= lim && d + 1 > rest then d + 1 else rest
  }

  ghost predicate InSlot(b: seq<Packet>, p: Packet, h: Seq, lim: nat, k: nat) {
    p in b && AheadOf(p.num, h) == k <= lim
  }

  lemma {:induction false} ReachBounds(b: seq<Packet>, h: Seq, lim: nat)
    ensures forall p, k: nat :: InSlot(b, p, h, lim, k) ==> k < Reach(b, h, lim)
    ensures Reach(b, h, lim) > 0 ==> exists p :: p in b && InSlot(b, p, h, lim, Reach(b, h, lim) - 1)
  {
    if b != [] {
      var init, last := b[..|b| - 1], b[|b| - 1];
      assert b == init + [last];
      ReachBounds(init, h, lim);
      forall p, k: nat | InSlot(b, p, h, lim, k) ensures k < Reach(b, h, lim) {
        assert p == last || InSlot(init, p, h, lim, k);
      }
      if Reach(b, h, lim) > 0 {
        if Reach(b, h, lim) == Reach(init, h, lim) {
          var p :| InSlot(init, p, h, lim, Reach(init, h, lim) - 1);
          assert InSlot(b, p, h, lim, Reach(b, h, lim) - 1);
        } else {
          assert InSlot(b, last, h, lim, Reach(b, h, lim) - 1);
        }
      }
    }
  }

  /** The k-th decision, counted from 0, when the producer is gone and only pulls remain. */
  function DrainStep(s: Playout, k: nat): Step
    decreases k
  {
    if k == 0 then AfterPull(s, true).1 else DrainStep(AfterPull(s, true).0, k - 1)
  }

  /** What draining from head `h` with buffer `b` is to play in slot `k`: the packet numbered `k`
      past the head if it lies within `lim`, something else while one is still to come, and
      `Finished` from the slot after the last on. */
  ghost predicate RightStep(b: seq<Packet>, h: Seq, lim: nat, k: nat, step: Step) {
    && (k >= Reach(b, h, lim) <==> step.Finished?)
    && (step.Decode? ==> exists p :: InSlot(b, p, h, lim, k))
    && (forall p :: InSlot(b, p, h, lim, k) ==> step == Decode(p.payload))
  }

  /** The slots of a buffer one pull later. */
  ghost predicate Shifted(b: seq<Packet>, h: Seq, lim: nat, later: seq<Packet>) {
    forall p, k: nat :: InSlot(later, p, Next(h), HALF, k) <==> InSlot(b, p, h, lim, k + 1)
  }

  lemma RightStepLater(b: seq<Packet>, h: Seq, lim: nat, later: seq<Packet>, k: nat, step: Step)
    requires Shifted(b, h, lim, later) && Reach(b, h, lim) > 0
    requires RightStep(later, Next(h), HALF, k, step)
    ensures RightStep(b, h, lim, k + 1, step)
  {
    ReachLater(b, h, lim, later);
    if step.Decode? {
      var p :| InSlot(later, p, Next(h), HALF, k);
      assert InSlot(b, p, h, lim, k + 1);
    }
  }

  lemma ReachLater(b: seq<Packet>, h: Seq, lim: nat, later: seq<Packet>)
    requires Shifted(b, h, lim, later) && Reach(b, h, lim) > 0
    ensures Reach(later, Next(h), HALF) == Reach(b, h, lim) - 1
  {
    ReachBounds(b, h, lim);
    ReachBounds(later, Next(h), HALF);
    var r, r' := Reach(b, h, lim), Reach(later, Next(h), HALF);
    if r' > 0 {
      var p :| InSlot(later, p, Next(h), HALF, r' - 1);
      assert InSlot(b, p, h, lim, r' - 1 + 1);
    }
    if r > 1 {
      var p :| InSlot(b, p, h, lim, r - 1);
      assert InSlot(b, p, h, lim, r - 2 + 1);
      assert InSlot(later, p, Next(h), HALF, r - 2);
    }
  }

  /** One drained pull of a started buffer that still has something to play. */
  lemma DrainShifts(s: Playout)
    requires s.Valid() && s.started && Reach(s.buffer, s.head.value, HALF) > 0
    ensures var t := AfterPull(s, true).0;
            && t.Valid() && t.started && t.head == Some(Next(s.head.value))
            && !AfterPull(s, true).1.Finished?
            && Shifted(s.buffer, s.head.value, HALF, t.buffer)
  {
    var h := s.head.value;
    ReachBounds(s.buffer, h, HALF);
    var far :| InSlot(s.buffer, far, h, HALF, Reach(s.buffer, h, HALF) - 1);
    PullAdvances(s, true, far);
    PreparedKeepsValid(s, true);
    var t := AfterPull(s, true).0;
    assert t.buffer == Kept(s.buffer, h);
    KeptMembers(s.buffer, h);
    forall p, k: nat ensures InSlot(t.buffer, p, Next(h), HALF, k) <==> InSlot(s.buffer, p, h, HALF, k + 1) {
      StepNearer(p.num, h);
      KeepsIsNear(p, h);
    }
  }

  /** With nothing left to play, every drained pull answers `Finished`. */
  lemma {:induction false} DrainEnds(s: Playout, k: nat)
    requires s.Valid() && s.started && Reach(s.buffer, s.head.value, HALF) == 0
    ensures DrainStep(s, k).Finished?
    decreases k
  {
    var h := s.head.value;
    ReachBounds(s.buffer, h, HALF);
    PreparedKeepsValid(s, true);
    KeptMembers(s.buffer, h);
    if Kept(s.buffer, h) != [] {
      var p := Kept(s.buffer, h)[0];
      assert p in Kept(s.buffer, h);
      KeepsIsNear(p, h);
      assert InSlot(s.buffer, p, h, HALF, AheadOf(p.num, h));
    }
    if k > 0 {
      PullKeepsValid(s, true);
      DrainEnds(AfterPull(s, true).0, k - 1);
    }
  }

  /** Draining a started buffer: each packet within half a circle of the head is decoded in the
      slot its number names, and the buffer finishes right after the last and stays finished. */
  lemma {:induction false} DrainPlaysEverySlot(s: Playout, k: nat)
    requires s.Valid() && s.started
    ensures RightStep(s.buffer, s.head.value, HALF, k, DrainStep(s, k))
    decreases k
  {
    var h := s.head.value;
    ReachBounds(s.buffer, h, HALF);
    if Reach(s.buffer, h, HALF) == 0 {
      DrainEnds(s, k);
    } else {
      DrainShifts(s);
      if k == 0 {
        FirstSlot(s);
      } else {
        var t := AfterPull(s, true).0;
        DrainPlaysEverySlot(t, k - 1);
        RightStepLater(s.buffer, h, HALF, t.buffer, k - 1, DrainStep(t, k - 1));
      }
    }
  }

  lemma FirstSlot(s: Playout)
    requires s.Valid() && s.started && Reach(s.buffer, s.head.value, HALF) > 0
    ensures RightStep(s.buffer, s.head.value, HALF, 0, AfterPull(s, true).1)
  {
    var h := s.head.value;
    DrainShifts(s);
    PullDecodesTheHead(s, true);
    hide AfterPull;
    forall p | InSlot(s.buffer, p, h, HALF, 0) ensures p.num == h {
      SameNumber(p.num, h);
    }
    if Holds(s.buffer, h) {
      var p := Find(s.buffer, h);
      assert InSlot(s.buffer, p, h, HALF, 0);
    }
  }

  /** The pull that starts playout: it decodes the oldest number and reclaims nothing. */
  lemma StartingPull(s: Playout)
    requires s.Valid() && !s.started && s.buffer != []
    ensures var (t, step) := AfterPull(s, true);
            && t.Valid() && t.started && t.head == Some(Next(Oldest(s.buffer))) && t.buffer == s.buffer
            && RightStep(s.buffer, Oldest(s.buffer), HALF + 1, 0, step)
            && Reach(s.buffer, Oldest(s.buffer), HALF + 1) > 0
  {
    var h := Oldest(s.buffer);
    OldestIsHeld(s.buffer);
    var p := Find(s.buffer, h);
    ReachBounds(s.buffer, h, HALF + 1);
    assert InSlot(s.buffer, p, h, HALF + 1, 0);
    PullKeepsValid(s, true);
    forall q | q in s.buffer && q.num == h ensures q == p {
      FindIs(s.buffer, q);
    }
    forall q | InSlot(s.buffer, q, h, HALF + 1, 0) ensures q.num == h {}
  }

  /** The same for a buffer abandoned while prebuffering. An empty one is finished at once; any
      other starts at its oldest number. The pull that starts playout reclaims nothing, so here a
      packet is played when it lies at most half a circle and one ahead of the oldest. */
  lemma {:induction false} DrainFromPrebuffer(s: Playout, k: nat)
    requires s.Valid() && !s.started
    ensures s.buffer == [] ==> DrainStep(s, k).Finished?
    ensures s.buffer != [] ==> RightStep(s.buffer, Oldest(s.buffer), HALF + 1, k, DrainStep(s, k))
    decreases k
  {
    if s.buffer == [] {
      if k > 0 {
        DrainFromPrebuffer(s, k - 1);
      }
    } else {
      StartingPull(s);
      if k > 0 {
        var h := Oldest(s.buffer);
        var t := AfterPull(s, true).0;
        DrainPlaysEverySlot(t, k - 1);
        forall q, i: nat
          ensures InSlot(t.buffer, q, Next(h), HALF, i) <==> InSlot(s.buffer, q, h, HALF + 1, i + 1)
        {
          StepNearer(q.num, h);
        }
        RightStepLater(s.buffer, h, HALF + 1, t.buffer, k - 1, DrainStep(t, k - 1));
      }
    }
  }
}
