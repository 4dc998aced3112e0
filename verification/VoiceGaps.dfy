/** What the jitter buffer takes in, what it turns away, and what it plays where nothing was taken. */
module VoiceGaps {
  import opened Common
  import opened Serial
  import opened Voice
  import opened VoiceRuns

  // ----- what a push takes -----

  /** No buffered packet has this number. */
  ghost predicate Unheld(b: seq<Packet>, num: Seq) {
    forall q :: q in b ==> q.num != num
  }

  /** A started buffer takes every new number from its head to 100 steps ahead, and plays it at the pull
      its number names, whatever is pushed and pulled before. */
  lemma NearPushPlays(s: Playout, p: Packet, es: seq<Event>, a: bool)
    requires s.Valid() && s.started && Unheld(s.buffer, p.num)
    requires AheadOf(p.num, s.head.value) <= 100
    requires Pulls(es) == AheadOf(p.num, s.head.value)
    ensures AfterPull(Run(AfterPush(s, p), es), a).1 == Decode(p.payload)
  {
    NotHeld(s.buffer, p.num);
    AcceptedPushPlays(s, p, es, a);
  }

  lemma NotHeld(b: seq<Packet>, num: Seq)
    ensures Unheld(b, num) <==> !Holds(b, num)
  {
    if Holds(b, num) {
      assert Find(b, num) in b;
    }
    if q :| q in b && q.num == num {
      var i :| 0 <= i < |b| && b[i] == q;
    }
  }

  /** A started buffer turns away, unchanged, a number it has played or given up, and one more than 100
      steps ahead. */
  lemma LateOrFarIsStale(s: Playout, p: Packet)
    requires s.Valid() && s.started
    requires NewerThan(s.head.value, p.num) || AheadOf(p.num, s.head.value) > 100
    ensures PushOutcomeOf(s, p).Stale? && AfterPush(s, p) == s
  {
  }

  /** A number held already is a duplicate, and the packet that came first stays. */
  lemma HeldIsDuplicate(s: Playout, p: Packet, q: Packet)
    requires s.Valid() && q in s.buffer && q.num == p.num
    requires s.started ==> AheadOf(p.num, s.head.value) <= 100
    ensures PushOutcomeOf(s, p).Duplicate? && AfterPush(s, p) == s
  {
    NotHeld(s.buffer, p.num);
  }

  /** While prebuffering every new number is taken. */
  lemma PrebufferTakes(s: Playout, p: Packet)
    requires s.Valid() && !s.started && Unheld(s.buffer, p.num)
    ensures PushOutcomeOf(s, p).Buffered? && AfterPush(s, p) == s.(buffer := s.buffer + [p])
  {
    NotHeld(s.buffer, p.num);
  }

  // ----- when playout starts -----

  /** A pull starts playout if and only if the target is met, or the producer is gone and something is held. */
  lemma StartsExactly(s: Playout, a: bool)
    requires s.Valid() && !s.started
    ensures AfterPull(s, a).1.Decode? <==> |s.buffer| >= s.target || (a && s.buffer != [])
    ensures !AfterPull(s, a).1.Decode? ==>
      AfterPull(s, a).0 == s && AfterPull(s, a).1 == if a then Finished else Silence
  {
    if s.buffer != [] {
      OldestIsHeld(s.buffer);
    }
  }

  // ----- what a gap plays -----

  /** Something is still to be played. */
  ghost predicate Coming(s: Playout)
    requires s.head.Some?
  {
    exists p :: p in s.buffer && AheadOf(p.num, s.head.value) <= HALF
  }

  /** The head's number is missing and a later one is held: the first five such pulls in a row conceal, the
      others are silent and starved. */
  lemma GapIsConcealed(s: Playout, a: bool)
    requires s.Valid() && s.started && Unheld(s.buffer, s.head.value) && Coming(s)
    ensures var (t, step) := AfterPull(s, a);
            && t.started && t.head == Some(Next(s.head.value))
            && (if s.conceals < 5 then step.Conceal? && t.conceals == s.conceals + 1 && t.starved == s.starved
                else step.Silence? && t.conceals == s.conceals && t.starved)
  {
    var p :| p in s.buffer && AheadOf(p.num, s.head.value) <= HALF;
    NotHeld(s.buffer, s.head.value);
    PullDecodesTheHead(s, a);
    PullAdvances(s, a, p);
    PreparedKeepsValid(s, a);
    KeptMembers(s.buffer, s.head.value);
    KeepsIsNear(p, s.head.value);
  }

  /** Nothing is left to play: a producer that is gone has finished; else five pulls conceal, and the sixth
      is silent and starved and goes back to prebuffering. */
  lemma DryIsConcealed(s: Playout, a: bool)
    requires s.Valid() && s.started && !Coming(s)
    ensures var (t, step) := AfterPull(s, a);
            && t.buffer == []
            && (if a then step.Finished? && t.head == s.head
                else if s.conceals < 5 then
                  && step.Conceal? && t.started && t.head == Some(Next(s.head.value))
                  && t.conceals == s.conceals + 1 && t.starved == s.starved
                else step.Silence? && !t.started && t.head.None? && t.conceals == 0 && t.starved)
  {
    PreparedKeepsValid(s, a);
    KeptMembers(s.buffer, s.head.value);
    var k := Kept(s.buffer, s.head.value);
    if k != [] {
      assert k[0] in k;
      KeepsIsNear(k[0], s.head.value);
    }
  }

  /** What decodes wipes the count of concealed pulls. */
  lemma DecodingForgives(s: Playout, a: bool)
    requires s.Valid() && s.started && Holds(s.buffer, s.head.value)
    ensures AfterPull(s, a).0.conceals == 0 && AfterPull(s, a).0.starved == s.starved
  {
    PullDecodesTheHead(s, a);
    PreparedKeepsValid(s, a);
  }

  /** A gap of `n` pulls, `c` concealed before it. */
  function GapSteps(c: nat, n: nat): seq<Step>
    decreases n
  {
    if n == 0 then [] else [if c < 5 then Conceal else Silence] + GapSteps(if c < 5 then c + 1 else c, n - 1)
  }

  function PullsOnly(n: nat, a: bool): seq<Event> {
    if n == 0 then [] else [Pull(a)] + PullsOnly(n - 1, a)
  }

  /** Up to the next packet held, the pulls conceal as long as the budget lasts, then are silent; then the
      packet is decoded. */
  lemma {:induction false} GapThenPacket(s: Playout, p: Packet, n: nat, a: bool)
    requires s.Valid() && s.started && p in s.buffer && AheadOf(p.num, s.head.value) == n <= HALF
    requires forall q :: q in s.buffer && q.num != p.num ==> AheadOf(q.num, s.head.value) > n
    ensures Steps(s, PullsOnly(n + 1, a)) == GapSteps(s.conceals, n) + [Decode(p.payload)]
    decreases n
  {
    var t := AfterPull(s, a).0;
    OnePull(s, n, a);
    SameNumber(p.num, s.head.value);
    if n == 0 {
      PullDecodesTheHead(s, a);
    } else {
      GapIsConcealed(s, a) by { NumbersAhead(s, p, n); }
      PullAdvances(s, a, p);
      Nearer(s, a, p, n);
      hide AfterPull, Steps, PullsOnly;
      GapThenPacket(t, p, n - 1, a);
    }
  }

  lemma OnePull(s: Playout, n: nat, a: bool)
    ensures Steps(s, PullsOnly(n + 1, a)) == [AfterPull(s, a).1] + Steps(AfterPull(s, a).0, PullsOnly(n, a))
    ensures Steps(s, PullsOnly(0, a)) == []
  {
    hide AfterPull;
    var es := PullsOnly(n + 1, a);
    assert es[0] == Pull(a) && es[1..] == PullsOnly(n, a);
  }

  lemma NumbersAhead(s: Playout, p: Packet, n: nat)
    requires s.started && s.head.Some? && p in s.buffer && 0 < AheadOf(p.num, s.head.value) == n <= HALF
    requires forall q :: q in s.buffer && q.num != p.num ==> AheadOf(q.num, s.head.value) > n
    ensures Unheld(s.buffer, s.head.value) && Coming(s)
  {
    forall q | q in s.buffer ensures q.num != s.head.value {
      SameNumber(q.num, s.head.value);
    }
  }

  /** One pull into the gap, what is held is one step nearer. */
  lemma Nearer(s: Playout, a: bool, p: Packet, n: nat)
    requires s.Valid() && s.started && 0 < n && AheadOf(p.num, s.head.value) == n
    requires forall q :: q in s.buffer && q.num != p.num ==> AheadOf(q.num, s.head.value) > n
    ensures var t := AfterPull(s, a).0;
            && AheadOf(p.num, Next(s.head.value)) == n - 1
            && forall q :: q in t.buffer && q.num != p.num ==> AheadOf(q.num, Next(s.head.value)) > n - 1
  {
    PreparedKeepsValid(s, a);
    KeptMembers(s.buffer, s.head.value);
    StepNearer(p.num, s.head.value);
    var t := AfterPull(s, a).0;
    assert forall q :: q in t.buffer ==> q in s.buffer;
    hide AfterPull;
    forall q | q in t.buffer && q.num != p.num ensures AheadOf(q.num, Next(s.head.value)) > n - 1 {
      StepNearer(q.num, s.head.value);
    }
  }
}
