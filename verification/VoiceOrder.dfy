/** Whole-run promises of the jitter buffer that compare runs or bound their decisions. */
module VoiceOrder {
  import opened Common
  import opened Serial
  import opened Voice
  import opened VoiceRuns

  // ----- the concealment budget -----

  function LeadingConceals(steps: seq<Step>): nat {
    if steps != [] && steps[0].Conceal? then 1 + LeadingConceals(steps[1..]) else 0
  }

  lemma ConcealSpendsBudget(s: Playout, a: bool)
    requires s.Valid()
    ensures AfterPull(s, a).1.Conceal? ==> AfterPull(s, a).0.conceals == s.conceals + 1
  {
    PreparedKeepsValid(s, a);
  }

  lemma {:induction false} LeadingWithinBudget(s: Playout, es: seq<Event>)
    requires s.Valid()
    ensures LeadingConceals(Steps(s, es)) + s.conceals <= PLC_MAX_CONSECUTIVE
    decreases |es|
  {
    if es != [] {
      AfterKeepsValid(s, es[0]);
      LeadingWithinBudget(After(s, es[0]), es[1..]);
      var rest := Steps(After(s, es[0]), es[1..]);
      match es[0]
      case Push(p) =>
        assert Steps(s, es) == rest;
      case Pull(a) =>
        ConcealSpendsBudget(s, a);
        hide AfterPull;
        assert Steps(s, es)[0] == AfterPull(s, a).1 && Steps(s, es)[1..] == rest;
    }
  }

  /** In every run, from every point on, at most five decisions in a row conceal. */
  lemma {:induction false} ConcealsAreBounded(s: Playout, es: seq<Event>, i: nat)
    requires s.Valid() && i <= |Steps(s, es)|
    ensures LeadingConceals(Steps(s, es)[i..]) <= PLC_MAX_CONSECUTIVE
    decreases |es|
  {
    if i == 0 {
      LeadingWithinBudget(s, es);
      assert Steps(s, es)[0..] == Steps(s, es);
    } else {
      AfterKeepsValid(s, es[0]);
      var rest := Steps(After(s, es[0]), es[1..]);
      match es[0]
      case Push(p) =>
        assert Steps(s, es) == rest;
        ConcealsAreBounded(After(s, es[0]), es[1..], i);
      case Pull(a) =>
        ConcealsAreBounded(After(s, es[0]), es[1..], i - 1);
        hide AfterPull;
        assert Steps(s, es)[i..] == rest[i - 1..];
    }
  }

  /** Starvation is raised only by a silent frame of a started playout whose budget is spent,
      so never while prebuffering. */
  lemma StarvedOnlyPastBudget(s: Playout, a: bool)
    requires s.Valid() && !s.starved && AfterPull(s, a).0.starved
    ensures s.started && s.conceals == PLC_MAX_CONSECUTIVE && AfterPull(s, a).1.Silence?
    ensures !Holds(s.buffer, s.head.value)
  {
    PreparedKeepsValid(s, a);
    if s.started {
      PullDecodesTheHead(s, a);
    } else if Prepared(s, a).started {
      OldestIsHeld(s.buffer);
    }
  }

  // ----- arrival order -----

  /** The same playout but for the order in which the buffered packets arrived. */
  ghost predicate Alike(s: Playout, t: Playout) {
    s.(buffer := t.buffer) == t && multiset(s.buffer) == multiset(t.buffer)
  }

  /** All numbers lie less than half a circle ahead of one of them. */
  ghost predicate Spanned(b: seq<Packet>) {
    b != [] ==> exists p :: p in b && SpannedFrom(b, p.num)
  }

  ghost predicate SpannedFrom(b: seq<Packet>, base: Seq) {
    forall q :: q in b ==> AheadOf(q.num, base) < HALF
  }

  /** Whenever the run is still prebuffering at a pull, the packets held are spanned. */
  ghost predicate SpannedRun(s: Playout, es: seq<Event>)
    decreases |es|
  {
    es == [] || ((es[0].Pull? && !s.started ==> Spanned(s.buffer)) && SpannedRun(After(s, es[0]), es[1..]))
  }

  lemma SameMembers(b: seq<Packet>, c: seq<Packet>)
    requires multiset(b) == multiset(c)
    ensures |b| == |c| && forall p :: p in b <==> p in c
  {
    assert |multiset(b)| == |b| && |multiset(c)| == |c|;
    forall p ensures p in b <==> p in c {
      assert p in b <==> p in multiset(b);
      assert p in c <==> p in multiset(c);
    }
  }

  lemma {:induction false} KeptCounts(b: seq<Packet>, play: Seq, p: Packet)
    ensures multiset(Kept(b, play))[p] == if Keeps(p, play) then multiset(b)[p] else 0
  {
    if b != [] {
      KeptCounts(b[..|b| - 1], play, p);
      assert b == b[..|b| - 1] + [b[|b| - 1]];
    }
  }

  lemma KeptAlike(b: seq<Packet>, c: seq<Packet>, play: Seq)
    requires multiset(b) == multiset(c)
    ensures multiset(Kept(b, play)) == multiset(Kept(c, play))
  {
    forall p ensures multiset(Kept(b, play))[p] == multiset(Kept(c, play))[p] {
      KeptCounts(b, play, p);
      KeptCounts(c, play, p);
    }
  }

  lemma OldestAlike(b: seq<Packet>, c: seq<Packet>)
    requires multiset(b) == multiset(c) && b != [] && Spanned(b)
    ensures c != [] && Oldest(b) == Oldest(c)
  {
    SameMembers(b, c);
    hide AheadOf, Oldest;
    var p :| p in b && SpannedFrom(b, p.num);
    OldestIsFirst(b, p.num);
    OldestIsFirst(c, p.num);
    SameNumber(p.num, p.num);
    SameNumber(Oldest(b), p.num);
    SameNumber(Oldest(c), p.num);
  }

  lemma HoldsAlike(b: seq<Packet>, c: seq<Packet>, s: Seq)
    requires multiset(b) == multiset(c) && Distinct(b)
    ensures Holds(b, s) <==> Holds(c, s)
    ensures Holds(b, s) && Holds(c, s) ==> Find(b, s) == Find(c, s)
  {
    SameMembers(b, c);
    if Holds(b, s) {
      var p := Find(b, s);
      assert p in c;
      var i :| 0 <= i < |c| && c[i] == p;
      assert c[i].num == s;
    }
    if Holds(c, s) {
      var p := Find(c, s);
      assert p in b;
      FindIs(b, p);
    }
  }

  lemma PreparedAlike(s: Playout, t: Playout, a: bool)
    requires s.Valid() && t.Valid() && Alike(s, t)
    requires !s.started ==> Spanned(s.buffer)
    ensures Alike(Prepared(s, a), Prepared(t, a))
  {
    SameMembers(s.buffer, t.buffer);
    if s.head.Some? {
      KeptAlike(s.buffer, t.buffer, s.head.value);
    } else if s.buffer != [] {
      OldestAlike(s.buffer, t.buffer);
    }
  }

  lemma PullAlike(s: Playout, t: Playout, a: bool)
    requires s.Valid() && t.Valid() && Alike(s, t)
    requires !s.started ==> Spanned(s.buffer)
    ensures AfterPull(s, a).1 == AfterPull(t, a).1
    ensures Alike(AfterPull(s, a).0, AfterPull(t, a).0)
  {
    PreparedAlike(s, t, a);
    PreparedKeepsValid(s, a);
    hide Prepared;
    var s', t' := Prepared(s, a), Prepared(t, a);
    SameMembers(s'.buffer, t'.buffer);
    if s'.head.Some? {
      HoldsAlike(s'.buffer, t'.buffer, s'.head.value);
    }
  }

  /** Arrival order does not matter: two buffers holding the same packets in any two orders decide
      alike for ever, whatever is pushed and pulled next, as long as what they hold when playout
      starts spans less than half a circle. */
  lemma {:induction false} ArrivalOrderIsForgotten(s: Playout, t: Playout, es: seq<Event>)
    requires s.Valid() && t.Valid() && Alike(s, t) && SpannedRun(s, es)
    ensures Steps(s, es) == Steps(t, es) && Alike(Run(s, es), Run(t, es))
    decreases |es|
  {
    if es != [] {
      AfterKeepsValid(s, es[0]);
      AfterKeepsValid(t, es[0]);
      match es[0]
      case Push(p) =>
        HoldsAlike(s.buffer, t.buffer, p.num);
        ArrivalOrderIsForgotten(After(s, es[0]), After(t, es[0]), es[1..]);
      case Pull(a) =>
        PullAlike(s, t, a);
        hide AfterPull;
        ArrivalOrderIsForgotten(After(s, es[0]), After(t, es[0]), es[1..]);
    }
  }

  // ----- exactly when the order matters -----

  /** `c` starts playout where `b` does. */
  ghost predicate SameStart(b: seq<Packet>, c: seq<Packet>)
    requires b != []
  {
    c != [] && Oldest(c) == Oldest(b)
  }

  /** A number given up is not taken up again by packets numbered otherwise. */
  lemma {:induction false} GivenUpForGood(front: seq<Packet>, rest: seq<Packet>, h: Seq)
    requires front != [] && Oldest(front) != h && forall p :: p in rest ==> p.num != h
    ensures Oldest(front + rest) != h
  {
    if rest == [] {
      assert front + rest == front;
    } else {
      var n := |rest| - 1;
      GivenUpForGood(front, rest[..n], h);
      assert (front + rest)[..|front + rest| - 1] == front + rest[..n];
    }
  }

  function Without(b: seq<Packet>, i: nat): seq<Packet>
    requires i < |b|
  {
    b[..i] + b[i + 1..]
  }

  lemma TakenOut(b: seq<Packet>, i: nat)
    requires i < |b|
    ensures multiset(b) == multiset{b[i]} + multiset(Without(b, i))
  {
    assert b == b[..i] + [b[i]] + b[i + 1..];
  }

  lemma NumberGone(b: seq<Packet>, i: nat, p: Packet)
    requires Distinct(b) && i < |b| && p in Without(b, i)
    ensures p.num != b[i].num
  {
    var k :| 0 <= k < |Without(b, i)| && Without(b, i)[k] == p;
    assert p == b[if k < i then k else k + 1];
  }

  /** Of two packets at least half a circle apart, one order gives up the one behind. */
  lemma GivesUp(p: Packet, q: Packet)
    requires AheadOf(q.num, p.num) >= HALF
    ensures Oldest([p, q]) == q.num || Oldest([q, p]) == q.num
  {
    assert [p, q][..1] == [p] && [q, p][..1] == [q];
  }

  lemma OneFarAhead(b: seq<Packet>, p: Packet) returns (q: Packet)
    requires b != [] && !Spanned(b) && p in b
    ensures q in b && q.num != p.num && AheadOf(q.num, p.num) >= HALF
  {
    assert !SpannedFrom(b, p.num);
    q :| q in b && AheadOf(q.num, p.num) >= HALF;
    SameNumber(p.num, p.num);
  }

  /** Two packets in front, the others behind them in any order. */
  lemma InFront(b: seq<Packet>, p: Packet, q: Packet) returns (rest: seq<Packet>)
    requires Distinct(b) && p in b && q in b && p != q
    ensures multiset(b) == multiset{p, q} + multiset(rest)
    ensures forall r :: r in rest ==> r.num != p.num
  {
    hide Distinct, Without;
    var i :| 0 <= i < |b| && b[i] == p;
    TakenOut(b, i);
    var others := Without(b, i);
    assert q in multiset(b);
    var j :| 0 <= j < |others| && others[j] == q;
    TakenOut(others, j);
    rest := Without(others, j);
    forall r | r in rest ensures r.num != p.num {
      assert r in multiset(others);
      NumberGone(b, i, r);
    }
  }

  /** Packets that are not spanned have an order that starts elsewhere: in front the one that starts
      playout and one at least half a circle ahead of it, so that the first is given up. */
  lemma AnotherOrder(b: seq<Packet>) returns (c: seq<Packet>)
    requires Distinct(b) && b != [] && !Spanned(b)
    ensures multiset(c) == multiset(b) && !SameStart(b, c)
  {
    OldestIsHeld(b);
    var p := Find(b, Oldest(b));
    var q := OneFarAhead(b, p);
    var rest := InFront(b, p, q);
    GivesUp(p, q);
    hide Oldest, AheadOf, Find, Distinct, Spanned, Holds;
    var front := if Oldest([p, q]) == q.num then [p, q] else [q, p];
    GivenUpForGood(front, rest, p.num);
    c := front + rest;
    assert multiset(front) == multiset{p, q};
  }

  /** All orders of some packets start playout at the same number if and only if less than half a
      circle spans them. */
  lemma OrderMattersExactly(b: seq<Packet>)
    requires Distinct(b) && b != []
    ensures Spanned(b) <==> forall c: seq<Packet> :: multiset(c) == multiset(b) ==> SameStart(b, c)
  {
    if Spanned(b) {
      forall c: seq<Packet> | multiset(c) == multiset(b) ensures SameStart(b, c) {
        OldestAlike(b, c);
      }
    } else {
      var c := AnotherOrder(b);
      assert multiset(c) == multiset(b) && !SameStart(b, c);
    }
  }

  // ----- the same of whole runs -----

  /** A new buffer. */
  function Unplayed(target: nat): Playout {
    Playout([], None, false, 0, target, false)
  }

  function Pushes(b: seq<Packet>): seq<Event> {
    seq(|b|, i requires 0 <= i < |b| => Push(b[i]))
  }

  /** The packets arrive, then one is pulled. */
  function ArriveThenPull(b: seq<Packet>, a: bool): seq<Event> {
    Pushes(b) + [Pull(a)]
  }

  /** A prebuffering buffer keeps every packet of a new number, and plays nothing. */
  lemma {:induction false} ArrivalsAreKept(s: Playout, b: seq<Packet>, a: bool)
    requires s.Valid() && !s.started && Distinct(s.buffer + b)
    ensures var t := s.(buffer := s.buffer + b);
            && Decoded(s, ArriveThenPull(b, a)) == Decoded(t, [Pull(a)])
            && Steps(s, ArriveThenPull(b, a)) == Steps(t, [Pull(a)])
            && Run(s, ArriveThenPull(b, a)) == AfterPull(t, a).0
    decreases |b|
  {
    var es := ArriveThenPull(b, a);
    if b == [] {
      assert es == [Pull(a)] && s.buffer + b == s.buffer;
      assert Run(s, [Pull(a)]) == Run(AfterPull(s, a).0, []);
    } else {
      assert es[0] == Push(b[0]) && es[1..] == ArriveThenPull(b[1..], a);
      assert forall i :: 0 <= i < |s.buffer| ==> (s.buffer + b)[i] == s.buffer[i];
      assert (s.buffer + b)[|s.buffer|] == b[0];
      assert After(s, es[0]) == s.(buffer := s.buffer + [b[0]]);
      AfterKeepsValid(s, es[0]);
      assert s.buffer + [b[0]] + b[1..] == s.buffer + b;
      hide AfterPull, After;
      ArrivalsAreKept(s.(buffer := s.buffer + [b[0]]), b[1..], a);
    }
  }

  lemma FirstPull(t: Playout, a: bool)
    requires t.Valid() && !t.started && t.buffer != [] && (|t.buffer| >= t.target || a)
    ensures Holds(t.buffer, Oldest(t.buffer))
    ensures Prepared(t, a).head == Some(Oldest(t.buffer))
    ensures AfterPull(t, a).1 == Decode(Find(t.buffer, Oldest(t.buffer)).payload)
  {
    OldestIsHeld(t.buffer);
    assert Prepared(t, a) == t.(head := Some(Oldest(t.buffer)), started := true);
  }

  lemma StartsAtOldest(target: nat, b: seq<Packet>, a: bool)
    requires target >= 1 && Distinct(b) && b != [] && (|b| >= target || a)
    ensures Decoded(Unplayed(target), ArriveThenPull(b, a)) == [Oldest(b)]
    ensures Holds(b, Oldest(b))
    ensures Steps(Unplayed(target), ArriveThenPull(b, a)) == [Decode(Find(b, Oldest(b)).payload)]
  {
    var s := Unplayed(target);
    assert s.buffer + b == b;
    ArrivalsAreKept(s, b, a);
    var t := s.(buffer := b);
    FirstPull(t, a);
    hide AfterPull, Prepared, Oldest, Find, ArriveThenPull, Distinct;
    assert Decoded(t, [Pull(a)]) == [Oldest(b)] + Decoded(After(t, Pull(a)), []);
    assert Steps(t, [Pull(a)]) == [AfterPull(t, a).1] + Steps(After(t, Pull(a)), []);
  }

  lemma FirstPlayed(target: nat, b: seq<Packet>, p: Packet, a: bool)
    requires target >= 1 && Distinct(b) && p in b && p.num == Oldest(b) && (|b| >= target || a)
    ensures Steps(Unplayed(target), ArriveThenPull(b, a)) == [Decode(p.payload)]
  {
    hide Oldest, ArriveThenPull, Steps;
    StartsAtOldest(target, b, a);
    FindIs(b, p);
  }

  /** The packets arrive in the two orders, one is pulled, and the same number is played. */
  ghost predicate PlaysAlike(target: nat, b: seq<Packet>, c: seq<Packet>, a: bool) {
    Decoded(Unplayed(target), ArriveThenPull(b, a)) == Decoded(Unplayed(target), ArriveThenPull(c, a))
  }

  /** Whatever meets the prefill of a new buffer, or is left by a gone producer, is started at a number
      that does not depend on the order of arrival, if and only if it spans less than half a circle. */
  lemma ArrivalMattersExactly(target: nat, b: seq<Packet>, a: bool)
    requires target >= 1 && Distinct(b) && b != [] && (|b| >= target || a)
    ensures Spanned(b) <==> forall c: seq<Packet> :: multiset(c) == multiset(b) ==> PlaysAlike(target, b, c, a)
  {
    forall c: seq<Packet> | multiset(c) == multiset(b) ensures PlaysAlike(target, b, c, a) <==> SameStart(b, c) {
      SameMembers(b, c);
      DistinctAlike(b, c);
      StartsAtOldest(target, b, a);
      StartsAtOldest(target, c, a);
    }
    OrderMattersExactly(b);
  }

  lemma DistinctAlike(b: seq<Packet>, c: seq<Packet>)
    requires multiset(b) == multiset(c) && Distinct(b)
    ensures Distinct(c)
  {
    SameMembers(b, c);
    forall i, j | 0 <= i < j < |c| ensures c[i].num != c[j].num {
      TwoOf(c, i, j);
      if c[i].num == c[j].num {
        FindIs(b, c[i]);
        FindIs(b, c[j]);
        OneOf(b, c[i]);
        assert false;
      }
    }
  }

  lemma TwoOf(c: seq<Packet>, i: nat, j: nat)
    requires i < j < |c|
    ensures c[i] == c[j] ==> multiset(c)[c[i]] >= 2
  {
    assert c == c[..i] + [c[i]] + c[i + 1..j] + [c[j]] + c[j + 1..];
  }

  lemma OneOf(b: seq<Packet>, p: Packet)
    requires Distinct(b) && p in b
    ensures multiset(b)[p] == 1
  {
    var i :| 0 <= i < |b| && b[i] == p;
    assert b == b[..i] + [p] + b[i + 1..];
    assert p !in b[..i] && p !in b[i + 1..];
  }

  /** With a live producer as without one: any packets that meet the prefill of a new buffer and span
      less than half a circle are played from the oldest on, whatever the order of their arrival, each
      by the pull its number names, in any interleaving with later pushes. */
  lemma PrefillPlaysInOrder(target: nat, b: seq<Packet>, first: Packet, p: Packet, es: seq<Event>, a: bool)
    requires target >= 1 && Distinct(b) && |b| >= target && first in b && SpannedFrom(b, first.num)
    requires p in b && p != first && Pulls(es) == AheadOf(p.num, first.num) - 1
    ensures Steps(Unplayed(target), ArriveThenPull(b, false)) == [Decode(first.payload)]
    ensures AfterPull(Run(Run(Unplayed(target), ArriveThenPull(b, false)), es), a).1 == Decode(p.payload)
  {
    hide AfterPull, Run, Steps, ArriveThenPull, Unplayed, SpannedFrom, Distinct, Next, AheadOf;
    AfterPrefill(target, b, first);
    OneNearer(b, first, p);
    PlaysInItsSlot(Run(Unplayed(target), ArriveThenPull(b, false)), p, es, a);
  }

  lemma AfterPrefill(target: nat, b: seq<Packet>, first: Packet)
    requires target >= 1 && Distinct(b) && |b| >= target && first in b && SpannedFrom(b, first.num)
    ensures Steps(Unplayed(target), ArriveThenPull(b, false)) == [Decode(first.payload)]
    ensures var t := Run(Unplayed(target), ArriveThenPull(b, false));
            t.Valid() && t.started && t.head == Some(Next(first.num)) && t.buffer == b
  {
    hide AfterPull, Run, Steps, ArriveThenPull, Oldest, SpannedFrom, Next;
    var s, t := Unplayed(target), Unplayed(target).(buffer := b);
    assert s.buffer + b == b;
    ArrivalsAreKept(s, b, false);
    RunKeepsValid(s, ArriveThenPull(b, false));
    FirstIsOldest(b, first);
    FirstPlayed(target, b, first, false);
    LiveStart(t);
  }

  lemma OneNearer(b: seq<Packet>, first: Packet, p: Packet)
    requires Distinct(b) && first in b && p in b && p != first && SpannedFrom(b, first.num)
    ensures AheadOf(p.num, Next(first.num)) == AheadOf(p.num, first.num) - 1 < HALF
  {
    FindIs(b, p);
    FindIs(b, first);
    StepNearer(p.num, first.num);
  }

  lemma FirstIsOldest(b: seq<Packet>, first: Packet)
    requires first in b && SpannedFrom(b, first.num)
    ensures Oldest(b) == first.num
  {
    hide AheadOf, Oldest;
    OldestIsFirst(b, first.num);
    SameNumber(first.num, first.num);
    SameNumber(Oldest(b), first.num);
  }

  /** The pull that starts a live playout reclaims nothing. */
  lemma LiveStart(s: Playout)
    requires s.Valid() && !s.started && s.buffer != [] && |s.buffer| >= s.target
    ensures var t := AfterPull(s, false).0;
            t.Valid() && t.started && t.head == Some(Next(Oldest(s.buffer))) && t.buffer == s.buffer
  {
    FirstPull(s, false);
    PullKeepsValid(s, false);
  }

  function Older(acc: Seq, num: Seq): Seq {
    if NewerThan(acc, num) then num else acc
  }

  lemma OldestOfFour(p: Packet, q: Packet, r: Packet, s: Packet)
    ensures Oldest([p, q, r, s]) == Older(Older(Older(p.num, q.num), r.num), s.num)
  {
    assert [p, q, r, s][..3] == [p, q, r] && [p, q, r][..2] == [p, q] && [p, q][..1] == [p];
    hide NewerThan;
    assert Oldest([p, q]) == Older(p.num, q.num);
    assert Oldest([p, q, r]) == Older(Older(p.num, q.num), r.num);
  }

  function Quarter(k: int): Packet
    requires 0 <= k < 4
  {
    Packet(0, 0, k * 0x4000_0000, [k])
  }

  lemma QuartersGiveUp()
    ensures Oldest([Quarter(0), Quarter(1), Quarter(2), Quarter(3)]) == Quarter(3).num
    ensures Oldest([Quarter(1), Quarter(2), Quarter(3), Quarter(0)]) == Quarter(0).num
  {
    var p, q, r, s := Quarter(0), Quarter(1), Quarter(2), Quarter(3);
    OldestOfFour(p, q, r, s);
    OldestOfFour(q, r, s, p);
    hide Oldest;
    assert Older(Older(Older(p.num, q.num), r.num), s.num) == s.num;
    assert Older(Older(Older(q.num, r.num), s.num), p.num) == p.num;
  }

  lemma LastOfFourPlayed(p: Packet, q: Packet, r: Packet, s: Packet)
    requires Distinct([p, q, r, s]) && Oldest([p, q, r, s]) == s.num
    ensures Steps(Unplayed(JITTER_REORDER_WINDOW), ArriveThenPull([p, q, r, s], false)) == [Decode(s.payload)]
  {
    hide Oldest, Steps, ArriveThenPull, Unplayed, Distinct;
    assert [p, q, r, s][3] == s;
    FirstPlayed(JITTER_REORDER_WINDOW, [p, q, r, s], s, false);
  }

  /** A reachable exception: four packets a quarter of the circle apart fill the least prefill, and the
      first pull plays a different one for two orders of arrival. */
  lemma UnspannedOrderMatters()
    ensures var b, c := [Quarter(0), Quarter(1), Quarter(2), Quarter(3)],
                        [Quarter(1), Quarter(2), Quarter(3), Quarter(0)];
            && multiset(b) == multiset(c)
            && Steps(Unplayed(JITTER_REORDER_WINDOW), ArriveThenPull(b, false)) == [Decode([3])]
            && Steps(Unplayed(JITTER_REORDER_WINDOW), ArriveThenPull(c, false)) == [Decode([0])]
  {
    var p, q, r, s := Quarter(0), Quarter(1), Quarter(2), Quarter(3);
    QuartersGiveUp();
    hide Oldest, Steps, ArriveThenPull, Unplayed;
    LastOfFourPlayed(p, q, r, s);
    LastOfFourPlayed(q, r, s, p);
    assert multiset([p, q, r, s]) == multiset{p, q, r, s} == multiset([q, r, s, p]);
  }
}
