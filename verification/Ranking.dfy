/** One voice budget over clips, emitters and sessions: whole groups, loudest first. */
module Ranking {

  /** Clips before emitters before voices, then by id. */
  datatype GroupKey = Clip(id: nat) | Emitter(id: nat) | Voice(id: nat) {
    function Rank(): nat {
      match this
      case Clip(_) => 0
      case Emitter(_) => 1
      case Voice(_) => 2
    }
  }

  datatype Candidate = Candidate(audibility: real, key: GroupKey, cost: nat)

  predicate KeyBefore(a: GroupKey, b: GroupKey) {
    a.Rank() < b.Rank() || (a.Rank() == b.Rank() && a.id < b.id)
  }

  /** Audibility descending, key ascending. */
  predicate Before(a: Candidate, b: Candidate) {
    a.audibility > b.audibility || (a.audibility == b.audibility && KeyBefore(a.key, b.key))
  }

  ghost predicate Sorted(s: seq<Candidate>) {
    forall i, j :: 0 <= i < j < |s| ==> Before(s[i], s[j])
  }

  ghost predicate DistinctKeys(s: seq<Candidate>) {
    forall i, j :: 0 <= i < j < |s| ==> s[i].key != s[j].key
  }

  function Insert(c: Candidate, s: seq<Candidate>): seq<Candidate> {
    if s == [] || Before(c, s[0]) then [c] + s else [s[0]] + Insert(c, s[1..])
  }

  function Sort(s: seq<Candidate>): seq<Candidate> {
    if s == [] then [] else Insert(s[|s| - 1], Sort(s[..|s| - 1]))
  }

  /** What `remaining` leaves after the group: a group that does not fit is skipped whole. */
  function Left(remaining: nat, c: Candidate): nat {
    if c.cost > remaining then remaining else remaining - c.cost
  }

  /** The keys granted their voices, walking down a ranking. */
  function Granted(ranked: seq<Candidate>, remaining: nat): set<GroupKey> {
    if ranked == [] then {}
    else (if ranked[0].cost > remaining then {} else {ranked[0].key}) + Granted(ranked[1..], Left(remaining, ranked[0]))
  }

  function Winners(cands: seq<Candidate>, maxVoices: nat): set<GroupKey> {
    Granted(Sort(cands), maxVoices)
  }

  /** What the winners among the first `i` ranked leave of the budget. */
  function LeftAt(ranked: seq<Candidate>, maxVoices: nat, i: nat): nat
    requires i <= |ranked|
  {
    if i == 0 then maxVoices else Left(LeftAt(ranked, maxVoices, i - 1), ranked[i - 1])
  }

  // ----- sorting -----

  lemma {:induction false} InsertSorts(c: Candidate, s: seq<Candidate>)
    requires Sorted(s) && forall i :: 0 <= i < |s| ==> s[i].key != c.key
    ensures Sorted(Insert(c, s)) && multiset(Insert(c, s)) == multiset{c} + multiset(s)
  {
    if s != [] {
      assert s == [s[0]] + s[1..];
      if !Before(c, s[0]) {
        BeforeIsTotal(c, s[0]);
        var tail, rest := s[1..], Insert(c, s[1..]);
        HeadFirst(s);
        hide Before;
        InsertSorts(c, tail);
        forall j | 0 <= j < |rest| ensures Before(s[0], rest[j]) {
          assert rest[j] in multiset(rest);
          assert rest[j] == c || rest[j] in tail;
        }
        SortedAfter(s[0], rest);
      } else {
        HeadFirst(s);
        BeforeAll(c, s);
        SortedAfter(c, s);
      }
    }
  }

  lemma BeforeIsTotal(a: Candidate, b: Candidate)
    requires a.key != b.key
    ensures Before(a, b) || Before(b, a)
  {
  }

  lemma HeadFirst(s: seq<Candidate>)
    requires Sorted(s) && s != []
    ensures Sorted(s[1..]) && forall c :: c in s[1..] ==> Before(s[0], c)
  {
    hide Before;
  }

  lemma BeforeAll(c: Candidate, s: seq<Candidate>)
    requires Sorted(s) && s != [] && Before(c, s[0])
    ensures forall j :: 0 <= j < |s| ==> Before(c, s[j])
  {
    forall j | 0 <= j < |s| ensures Before(c, s[j]) {
      assert j > 0 ==> Before(s[0], s[j]);
    }
  }

  lemma SortedAfter(c: Candidate, s: seq<Candidate>)
    requires Sorted(s) && forall j :: 0 <= j < |s| ==> Before(c, s[j])
    ensures Sorted([c] + s)
  {
    hide Before;
  }

  lemma {:induction false} SortSorts(s: seq<Candidate>)
    requires DistinctKeys(s)
    ensures Sorted(Sort(s)) && multiset(Sort(s)) == multiset(s)
  {
    if s != [] {
      var init, last := s[..|s| - 1], s[|s| - 1];
      assert s == init + [last];
      SortSorts(init);
      forall i | 0 <= i < |Sort(init)| ensures Sort(init)[i].key != last.key {
        assert Sort(init)[i] in multiset(Sort(init));
        assert Sort(init)[i] in init;
      }
      InsertSorts(last, Sort(init));
    }
  }

  /** Equal heads taken off, the same candidates remain. */
  lemma SameTail(s: seq<Candidate>, t: seq<Candidate>)
    requires multiset(s) == multiset(t) && s != [] && t != [] && s[0] == t[0]
    ensures multiset(s[1..]) == multiset(t[1..])
  {
    assert s == [s[0]] + s[1..] && t == [t[0]] + t[1..];
    assert multiset(s[1..]) == multiset(s) - multiset{s[0]};
    assert multiset(t[1..]) == multiset(t) - multiset{t[0]};
  }

  /** A ranking is determined by what it ranks. */
  lemma {:induction false} RankingIsUnique(s: seq<Candidate>, t: seq<Candidate>)
    requires Sorted(s) && Sorted(t) && multiset(s) == multiset(t)
    ensures s == t
  {
    if s == [] {
      assert |multiset(t)| == 0;
    } else {
      hide Sorted, Before;
      SameHead(s, t);
      SameTail(s, t);
      HeadFirst(s);
      HeadFirst(t);
      RankingIsUnique(s[1..], t[1..]);
      assert s == [s[0]] + s[1..] && t == [t[0]] + t[1..];
    }
  }

  lemma BeforeIsStrict(a: Candidate, b: Candidate)
    ensures !(Before(a, b) && Before(b, a))
  {
  }

  lemma SameHead(s: seq<Candidate>, t: seq<Candidate>)
    requires Sorted(s) && Sorted(t) && multiset(s) == multiset(t) && s != []
    ensures t != [] && s[0] == t[0]
  {
    assert s[0] in multiset(s);
    assert s[0] in multiset(t);
    var j :| 0 <= j < |t| && t[j] == s[0];
    assert t[0] in multiset(t);
    assert t[0] in multiset(s);
    var i :| 0 <= i < |s| && s[i] == t[0];
    assert i > 0 ==> Before(s[0], s[i]);
    assert j > 0 ==> Before(t[0], t[j]);
    BeforeIsStrict(s[0], t[0]);
  }

  /** The winners do not depend on the order in which the maps were iterated. */
  lemma WinnersIgnoreOrder(s: seq<Candidate>, t: seq<Candidate>, maxVoices: nat)
    requires DistinctKeys(s) && DistinctKeys(t) && multiset(s) == multiset(t)
    ensures Winners(s, maxVoices) == Winners(t, maxVoices)
  {
    SortSorts(s);
    SortSorts(t);
    RankingIsUnique(Sort(s), Sort(t));
  }

  // ----- the budget -----

  lemma {:induction false} LeftAtTail(ranked: seq<Candidate>, maxVoices: nat, i: nat)
    requires 0 < i <= |ranked|
    ensures LeftAt(ranked, maxVoices, i) == LeftAt(ranked[1..], Left(maxVoices, ranked[0]), i - 1)
  {
    if i > 1 {
      LeftAtTail(ranked, maxVoices, i - 1);
    }
  }

  lemma {:induction false} GrantedAreRanked(ranked: seq<Candidate>, maxVoices: nat, k: GroupKey)
    requires k in Granted(ranked, maxVoices)
    ensures exists i :: 0 <= i < |ranked| && ranked[i].key == k
  {
    if ranked[0].key != k {
      GrantedAreRanked(ranked[1..], Left(maxVoices, ranked[0]), k);
      var i :| 0 <= i < |ranked[1..]| && ranked[1..][i].key == k;
      assert ranked[i + 1].key == k;
    }
  }

  lemma {:induction false} UnrankedNotGranted(ranked: seq<Candidate>, remaining: nat, k: GroupKey)
    requires forall i :: 0 <= i < |ranked| ==> ranked[i].key != k
    ensures k !in Granted(ranked, remaining)
  {
    if ranked != [] {
      UnrankedNotGranted(ranked[1..], Left(remaining, ranked[0]), k);
    }
  }

  lemma HeadNotGrantedAgain(ranked: seq<Candidate>, left: nat)
    requires DistinctKeys(ranked) && ranked != []
    ensures ranked[0].key !in Granted(ranked[1..], left)
  {
    UnrankedNotGranted(ranked[1..], left, ranked[0].key);
  }

  /** A candidate wins exactly when its cost fits what the winners ranked above it left. */
  lemma {:induction false} WinsIfItFits(ranked: seq<Candidate>, maxVoices: nat, i: nat)
    requires DistinctKeys(ranked) && i < |ranked|
    ensures ranked[i].key in Granted(ranked, maxVoices) <==> ranked[i].cost <= LeftAt(ranked, maxVoices, i)
  {
    var rest, left := ranked[1..], Left(maxVoices, ranked[0]);
    if i == 0 {
      HeadNotGrantedAgain(ranked, left);
    } else {
      assert rest[i - 1] == ranked[i];
      WinsIfItFits(rest, left, i - 1);
      LeftAtTail(ranked, maxVoices, i);
    }
  }

  /** The costs of the ranked groups among `keys`. */
  function CostOf(ranked: seq<Candidate>, keys: set<GroupKey>): nat {
    if ranked == [] then 0
    else (if ranked[0].key in keys then ranked[0].cost else 0) + CostOf(ranked[1..], keys)
  }

  lemma {:induction false} CostOfTail(ranked: seq<Candidate>, keys: set<GroupKey>, k: GroupKey)
    requires forall i :: 0 <= i < |ranked| ==> ranked[i].key != k
    ensures CostOf(ranked, keys + {k}) == CostOf(ranked, keys)
  {
    if ranked != [] {
      CostOfTail(ranked[1..], keys, k);
    }
  }

  /** The winners' costs and what is left add up to the budget. */
  lemma {:induction false} CostsFitBudget(ranked: seq<Candidate>, maxVoices: nat)
    requires DistinctKeys(ranked)
    ensures CostOf(ranked, Granted(ranked, maxVoices)) + LeftAt(ranked, maxVoices, |ranked|) == maxVoices
  {
    if ranked != [] {
      var rest, left := ranked[1..], Left(maxVoices, ranked[0]);
      CostsFitBudget(rest, left);
      LeftAtTail(ranked, maxVoices, |ranked|);
      var key, g := ranked[0].key, Granted(rest, left);
      HeadNotGrantedAgain(ranked, left);
      CostOfTail(rest, g, key);
      assert Granted(ranked, maxVoices) == if ranked[0].cost > maxVoices then g else g + {key};
    }
  }

  // ----- who wins -----

  lemma {:induction false} LeftNeverRises(ranked: seq<Candidate>, maxVoices: nat, i: nat, j: nat)
    requires i <= j <= |ranked|
    ensures LeftAt(ranked, maxVoices, j) <= LeftAt(ranked, maxVoices, i)
    decreases j
  {
    if i < j {
      LeftNeverRises(ranked, maxVoices, i, j - 1);
    }
  }

  /** Of two candidates the one that precedes the other and costs no more wins if the other does. */
  lemma PrecedingWins(cands: seq<Candidate>, maxVoices: nat, a: Candidate, b: Candidate)
    requires DistinctKeys(cands) && a in cands && b in cands && Before(a, b)
    requires a.cost <= b.cost && b.key in Winners(cands, maxVoices)
    ensures a.key in Winners(cands, maxVoices)
  {
    var ranked := Sort(cands);
    SortSorts(cands);
    SortedIsDistinct(ranked, cands);
    var i, j := PlacesOf(ranked, cands, a, b);
    hide Before, Sorted, Sort, DistinctKeys;
    WinsIfItFits(ranked, maxVoices, i);
    WinsIfItFits(ranked, maxVoices, j);
    LeftNeverRises(ranked, maxVoices, i, j);
  }

  lemma PlacesOf(ranked: seq<Candidate>, cands: seq<Candidate>, a: Candidate, b: Candidate)
    returns (i: nat, j: nat)
    requires Sorted(ranked) && multiset(ranked) == multiset(cands) && a in cands && b in cands && Before(a, b)
    ensures i < j < |ranked| && ranked[i] == a && ranked[j] == b
  {
    assert a in multiset(cands) && b in multiset(cands) && a in multiset(ranked) && b in multiset(ranked);
    i :| 0 <= i < |ranked| && ranked[i] == a;
    j :| 0 <= j < |ranked| && ranked[j] == b;
    BeforeIsStrict(a, b);
  }

  lemma SortedIsDistinct(ranked: seq<Candidate>, cands: seq<Candidate>)
    requires DistinctKeys(cands) && Sorted(ranked) && multiset(ranked) == multiset(cands)
    ensures DistinctKeys(ranked)
  {
    forall i, j | 0 <= i < j < |ranked| ensures ranked[i].key != ranked[j].key {
      assert Before(ranked[i], ranked[j]);
      assert ranked[i] in multiset(ranked) && ranked[j] in multiset(ranked);
      assert ranked[i] in multiset(cands) && ranked[j] in multiset(cands);
    }
  }

  /** Of two candidates the louder one wins if the other does, unless it costs more. */
  lemma LouderWins(cands: seq<Candidate>, maxVoices: nat, a: Candidate, b: Candidate)
    requires DistinctKeys(cands) && a in cands && b in cands && a.audibility > b.audibility
    requires a.cost <= b.cost && b.key in Winners(cands, maxVoices)
    ensures a.key in Winners(cands, maxVoices)
  {
    PrecedingWins(cands, maxVoices, a, b);
  }

  /** Of two equally loud ones: a clip before an emitter before a voice, and of one kind the smaller id. */
  lemma TieGoesToFirst(cands: seq<Candidate>, maxVoices: nat, a: Candidate, b: Candidate)
    requires DistinctKeys(cands) && a in cands && b in cands && a.audibility == b.audibility
    requires || (a.key.Clip? && !b.key.Clip?)
             || (a.key.Emitter? && b.key.Voice?)
             || (a.key.Clip? == b.key.Clip? && a.key.Emitter? == b.key.Emitter? && a.key.id < b.key.id)
    requires a.cost <= b.cost && b.key in Winners(cands, maxVoices)
    ensures a.key in Winners(cands, maxVoices)
  {
    PrecedingWins(cands, maxVoices, a, b);
  }
}
