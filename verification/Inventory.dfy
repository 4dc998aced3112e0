/** The configurations a player carries: a multiset with a capacity, kept as rows in first-seen order. */
module Inventories {

  /** One past the widest count. */
  const COUNT_END := 0x1_0000_0000

  type BlockId = int

  datatype Row = Row(id: BlockId, count: nat)

  /** The value of an inventory. */
  datatype Stock = Stock(rows: seq<Row>, total: nat, capacity: nat, rev: nat) {
    ghost predicate Valid() {
      && Distinct(rows) && AllHeld(rows)
      && total == Units(rows) <= capacity
    }
  }

  ghost predicate Distinct(rows: seq<Row>) {
    forall i, j :: 0 <= i < j < |rows| ==> rows[i].id != rows[j].id
  }

  ghost predicate AllHeld(rows: seq<Row>) {
    forall i :: 0 <= i < |rows| ==> rows[i].count > 0
  }

  /** How many of one block are held. */
  function Count(rows: seq<Row>, id: BlockId): nat {
    if rows == [] then 0 else if rows[0].id == id then rows[0].count else Count(rows[1..], id)
  }

  function Units(rows: seq<Row>): nat {
    if rows == [] then 0 else rows[0].count + Units(rows[1..])
  }

  /** The rows with `n` units of `id`, in place, and at the end if there was no row. */
  function Put(rows: seq<Row>, id: BlockId, n: nat): seq<Row> {
    if rows == [] then [Row(id, n)]
    else if rows[0].id == id then [Row(id, n)] + rows[1..]
    else [rows[0]] + Put(rows[1..], id, n)
  }

  /** Emptied rows drop out. */
  function Held(rows: seq<Row>): seq<Row> {
    if rows == [] then []
    else if rows[|rows| - 1].count > 0 then Held(rows[..|rows| - 1]) + [rows[|rows| - 1]]
    else Held(rows[..|rows| - 1])
  }

  /** The room left, narrowed to the width of a count: its upper bits are lost. */
  function Room(s: Stock): nat {
    (if s.capacity < s.total then 0 else s.capacity - s.total) % COUNT_END
  }

  function Least(a: nat, b: nat): nat {
    if a < b then a else b
  }

  function Taken(s: Stock, n: nat): nat {
    if n < Room(s) then n else Room(s)
  }

  function AfterAdd(s: Stock, id: BlockId, n: nat): (Stock, bool) {
    if n == 0 then (s, true)
    else if Taken(s, n) == 0 then (s, false)
    else
      (Stock(Put(s.rows, id, Count(s.rows, id) + Taken(s, n)), s.total + Taken(s, n), s.capacity, s.rev + 1),
       Taken(s, n) == n)
  }

  function AfterConsume(s: Stock, id: BlockId, n: nat): (Stock, bool) {
    if n == 0 then (s, true)
    else if Count(s.rows, id) < n || s.total < n then (s, false)
    else (Stock(Held(Put(s.rows, id, Count(s.rows, id) - n)), s.total - n, s.capacity, s.rev + 1), true)
  }

  function AfterRevoke(s: Stock, id: BlockId, n: nat): Stock {
    var take := if Count(s.rows, id) < n then Count(s.rows, id) else n;
    if take == 0 || s.total < take then s
    else Stock(Held(Put(s.rows, id, Count(s.rows, id) - take)), s.total - take, s.capacity, s.rev + 1)
  }

  // ----- rows -----

  predicate Has(rows: seq<Row>, id: BlockId) {
    exists i :: 0 <= i < |rows| && rows[i].id == id
  }

  lemma {:induction false} CountAt(rows: seq<Row>, i: nat)
    requires Distinct(rows) && i < |rows|
    ensures Count(rows, rows[i].id) == rows[i].count
  {
    if i > 0 {
      assert rows[1..][i - 1] == rows[i];
      CountAt(rows[1..], i - 1);
    }
  }

  lemma {:induction false} CountNone(rows: seq<Row>, id: BlockId)
    requires !Has(rows, id)
    ensures Count(rows, id) == 0
  {
    if rows != [] {
      assert rows[0].id != id;
      forall i | 0 <= i < |rows[1..]| ensures rows[1..][i].id != id {
        assert rows[1..][i] == rows[i + 1];
      }
      CountNone(rows[1..], id);
    }
  }

  /** Putting changes one count and leaves the others, the order, and the distinctness alone. */
  lemma {:induction false} PutCounts(rows: seq<Row>, id: BlockId, n: nat)
    requires Distinct(rows)
    ensures forall k :: Count(Put(rows, id, n), k) == if k == id then n else Count(rows, k)
    ensures Units(Put(rows, id, n)) == Units(rows) - Count(rows, id) + n
    ensures Distinct(Put(rows, id, n))
    ensures forall i :: 0 <= i < |Put(rows, id, n)| ==> Put(rows, id, n)[i] in rows || Put(rows, id, n)[i] == Row(id, n)
    ensures Count(rows, id) <= Units(rows)
  {
    if rows != [] && rows[0].id != id {
      PutCounts(rows[1..], id, n);
      var p := Put(rows, id, n);
      var rest := Put(rows[1..], id, n);
      assert p[0] == rows[0] && p[1..] == rest;
      forall i | 0 <= i < |rest| ensures rest[i].id != rows[0].id {
        assert rest[i] in rows[1..] || rest[i] == Row(id, n);
      }
    } else if rows != [] {
      var p := Put(rows, id, n);
      assert p[1..] == rows[1..];
    }
  }

  lemma {:induction false} CountLast(init: seq<Row>, last: Row, id: BlockId)
    requires Distinct(init + [last])
    ensures Count(init + [last], id) == (if id == last.id then last.count else Count(init, id))
    ensures Units(init + [last]) == Units(init) + last.count
  {
    if init != [] {
      assert (init + [last])[1..] == init[1..] + [last];
      CountLast(init[1..], last, id);
      assert (init + [last])[|init|] == last;
    }
  }

  /** Dropping emptied rows changes no count. */
  lemma {:induction false} HeldCounts(rows: seq<Row>, id: BlockId)
    requires Distinct(rows)
    ensures Count(Held(rows), id) == Count(rows, id) && Units(Held(rows)) == Units(rows)
    ensures Distinct(Held(rows)) && AllHeld(Held(rows))
    ensures forall r :: r in Held(rows) ==> r in rows
  {
    if rows != [] {
      var init, last := rows[..|rows| - 1], rows[|rows| - 1];
      assert rows == init + [last];
      HeldCounts(init, id);
      CountLast(init, last, id);
      forall i | 0 <= i < |init| ensures init[i].id != last.id {
        assert init[i] == rows[i];
      }
      if last.count > 0 {
        var held := Held(init);
        forall i | 0 <= i < |held| ensures held[i].id != last.id {
          assert held[i] in init;
        }
        CountLast(held, last, id);
      } else if id == last.id {
        CountNone(init, id);
      }
    }
  }

  lemma {:induction false} HeldKeeps(rows: seq<Row>)
    requires AllHeld(rows)
    ensures Held(rows) == rows
  {
    if rows != [] {
      HeldKeeps(rows[..|rows| - 1]);
      assert rows == rows[..|rows| - 1] + [rows[|rows| - 1]];
    }
  }

  // ----- what the operations do to the counts -----

  /** Lowering one count and dropping the row if it empties. */
  lemma Lowered(rows: seq<Row>, id: BlockId, n: nat)
    requires Distinct(rows) && AllHeld(rows) && n <= Count(rows, id)
    ensures var t := Held(Put(rows, id, Count(rows, id) - n));
            && Distinct(t) && AllHeld(t) && Units(t) == Units(rows) - n
            && forall k :: Count(t, k) == Count(rows, k) - if k == id then n else 0
    ensures Count(rows, id) <= Units(rows)
  {
    var put := Put(rows, id, Count(rows, id) - n);
    PutCounts(rows, id, Count(rows, id) - n);
    forall k ensures Count(Held(put), k) == Count(put, k) {
      HeldCounts(put, k);
    }
    HeldCounts(put, id);
  }

  lemma AddCounts(s: Stock, id: BlockId, n: nat)
    requires s.Valid()
    ensures var (t, all) := AfterAdd(s, id, n);
            && t.Valid() && t.capacity == s.capacity
            && (all <==> n == 0 || n <= Room(s))
            && (Taken(s, n) == Least(n, s.capacity - s.total) <==> s.capacity - s.total < COUNT_END || n <= Room(s))
            && (forall k :: Count(t.rows, k) == Count(s.rows, k) + if k == id then Taken(s, n) else 0)
            && t.total == s.total + Taken(s, n)
  {
    PutCounts(s.rows, id, Count(s.rows, id) + Taken(s, n));
    Narrowed(s.capacity - s.total);
  }

  lemma Narrowed(x: nat)
    ensures x % COUNT_END <= x && (x % COUNT_END == x <==> x < COUNT_END)
  {
  }

  /** An inventory with room for more than any count may take nothing: what it adds is what fits if and
      only if the room is narrower than a count, or the narrowed room suffices. */
  lemma WideRoomTakesNothing(id: BlockId)
    ensures var s := Stock([], 0, COUNT_END, 0);
            s.Valid() && AfterAdd(s, id, 1) == (s, false)
  {
  }

  /** What a spent count finds when it comes back. */
  predicate Refundable(s: Stock, n: nat)
    requires s.total <= s.capacity
  {
    n <= (s.capacity - s.total + n) % COUNT_END
  }

  lemma ConsumeCounts(s: Stock, id: BlockId, n: nat)
    requires s.Valid()
    ensures var (t, ok) := AfterConsume(s, id, n);
            && t.Valid() && t.capacity == s.capacity
            && (ok <==> n <= Count(s.rows, id))
            && (!ok ==> t == s)
            && (ok ==> t.total == s.total - n)
            && (ok ==> forall k :: Count(t.rows, k) == Count(s.rows, k) - if k == id then n else 0)
  {
    if n <= Count(s.rows, id) {
      Lowered(s.rows, id, n);
    }
  }

  /** The blocks in display order. */
  function IdsOf(rows: seq<Row>): seq<BlockId> {
    if rows == [] then [] else [rows[0].id] + IdsOf(rows[1..])
  }

  lemma {:induction false} PutInPlace(rows: seq<Row>, id: BlockId, n: nat)
    requires Count(rows, id) > 0
    ensures IdsOf(Put(rows, id, n)) == IdsOf(rows)
  {
    if rows[0].id != id {
      PutInPlace(rows[1..], id, n);
      assert Put(rows, id, n)[1..] == Put(rows[1..], id, n);
    } else {
      assert Put(rows, id, n)[1..] == rows[1..];
    }
  }

  lemma {:induction false} IdsHold(rows: seq<Row>, id: BlockId)
    ensures id in IdsOf(rows) <==> Has(rows, id)
  {
    if rows != [] {
      IdsHold(rows[1..], id);
      if Has(rows[1..], id) {
        var i :| 0 <= i < |rows[1..]| && rows[1..][i].id == id;
        assert rows[i + 1].id == id;
      }
      if Has(rows, id) {
        var i :| 0 <= i < |rows| && rows[i].id == id;
        assert i > 0 ==> rows[1..][i - 1].id == id;
      }
    }
  }

  /** The display order is stable: spending some of a block moves no row, and spending the last of it
      drops that row. */
  lemma ConsumeKeepsOrder(s: Stock, id: BlockId, n: nat)
    requires s.Valid() && 0 < n <= Count(s.rows, id)
    ensures IdsOf(AfterConsume(s, id, n).0.rows) == IdsOf(s.rows) <==> n < Count(s.rows, id)
  {
    var rest := Count(s.rows, id) - n;
    var put := Put(s.rows, id, rest);
    CountWithin(s.rows, id);
    PutInPlace(s.rows, id, rest);
    if rest > 0 {
      PutCounts(s.rows, id, rest);
      HeldKeeps(put);
    } else {
      Lowered(s.rows, id, n);
      var t := Held(put);
      forall j | 0 <= j < |t| ensures t[j].id != id {
        CountAt(t, j);
      }
      IdsHold(t, id);
      IdsHold(s.rows, id);
      HeldAt(s.rows, id);
    }
  }

  lemma HeldAt(rows: seq<Row>, id: BlockId)
    requires Count(rows, id) > 0
    ensures Has(rows, id)
  {
    if !Has(rows, id) {
      CountNone(rows, id);
    }
  }

  lemma RevokeCounts(s: Stock, id: BlockId, n: nat)
    requires s.Valid()
    ensures var t := AfterRevoke(s, id, n);
            var take := if Count(s.rows, id) < n then Count(s.rows, id) else n;
            && t.Valid() && t.capacity == s.capacity && t.total == s.total - take
            && (forall k :: Count(t.rows, k) == Count(s.rows, k) - if k == id then take else 0)
  {
    hide Put, Held, Units, Distinct, AllHeld, Count;
    CountWithin(s.rows, id);
    Lowered(s.rows, id, if Count(s.rows, id) < n then Count(s.rows, id) else n);
  }

  /** A stock whose revision has moved since it was seen holds something else, and one whose has not, the same. */
  ghost predicate Revised(s: Stock, t: Stock) {
    if t.rev == s.rev then t == s else t.rev == s.rev + 1 && t.total != s.total
  }

  /** No operation changes what is held unnoticed, or is noticed for nothing. */
  lemma RevisionTells(s: Stock, id: BlockId, n: nat)
    requires s.Valid()
    ensures Revised(s, AfterAdd(s, id, n).0)
    ensures Revised(s, AfterConsume(s, id, n).0)
    ensures Revised(s, AfterRevoke(s, id, n))
  {
    hide Put, Held, Units, Distinct, AllHeld, Count;
  }

  /** Every count is what it was. */
  ghost predicate SameCounts(s: Stock, t: Stock) {
    t.total == s.total && forall k :: Count(t.rows, k) == Count(s.rows, k)
  }

  /** Spending and giving back restores every count exactly when the room then is not cut short by its
      narrowing; so always below the width of a count. */
  lemma SpendAndRefund(s: Stock, id: BlockId, n: nat)
    requires s.Valid() && n <= Count(s.rows, id)
    ensures var t := AfterAdd(AfterConsume(s, id, n).0, id, n);
            SameCounts(s, t.0) <==> Refundable(s, n)
    ensures s.capacity < COUNT_END ==> Refundable(s, n)
  {
    ConsumeCounts(s, id, n);
    var spent := AfterConsume(s, id, n).0;
    AddCounts(spent, id, n);
    assert n > 0 ==> Room(spent) == (s.capacity - s.total + n) % COUNT_END;
    CountWithin(s.rows, id);
    if s.capacity < COUNT_END {
      Narrowed(s.capacity - s.total + n);
    }
  }

  lemma CountWithin(rows: seq<Row>, id: BlockId)
    requires Distinct(rows)
    ensures Count(rows, id) <= Units(rows)
  {
    PutCounts(rows, id, 0);
  }

  lemma GainAndRevoke(s: Stock, id: BlockId, n: nat)
    requires s.Valid() && AfterAdd(s, id, n).1
    ensures var t := AfterRevoke(AfterAdd(s, id, n).0, id, n);
            SameCounts(s, t)
  {
    AddCounts(s, id, n);
    RevokeCounts(AfterAdd(s, id, n).0, id, n);
  }

  // ----- the inventory itself -----

  class Inventory {
    var counts: seq<Row>
    var total: nat
    const capacity: nat
    var rev: nat

    ghost function View(): Stock
      reads this
    {
      Stock(counts, total, capacity, rev)
    }

    ghost predicate Valid()
      reads this
    {
      View().Valid()
    }

    constructor (capacity: nat)
      ensures Valid() && View() == Stock([], 0, capacity, 0)
    {
      counts := [];
      total := 0;
      this.capacity := capacity;
      rev := 0;
    }

    method Find(id: BlockId) returns (at: nat)
      ensures at <= |counts|
      ensures at < |counts| ==> counts[at].id == id
      ensures forall i :: 0 <= i < at ==> counts[i].id != id
    {
      at := 0;
      while at < |counts| && counts[at].id != id
        invariant at <= |counts|
        invariant forall i :: 0 <= i < at ==> counts[i].id != id
      {
        at := at + 1;
      }
    }

    method CountOf(id: BlockId) returns (n: nat)
      requires Valid()
      ensures n == Count(counts, id)
    {
      var at := Find(id);
      if at < |counts| {
        CountAt(counts, at);
        n := counts[at].count;
      } else {
        CountNone(counts, id);
        n := 0;
      }
    }

    /** Set the units of `id`, appending a row when there is none. */
    method Set(id: BlockId, n: nat)
      modifies this`counts
      ensures counts == Put(old(counts), id, n)
    {
      var at := Find(id);
      PutAt(counts, id, n, at);
      if at < |counts| {
        counts := counts[at := Row(id, n)];
      } else {
        counts := counts + [Row(id, n)];
      }
    }

    /** `retain` the rows that still hold something. */
    method Retain()
      modifies this`counts
      ensures counts == Held(old(counts))
    {
      var kept: seq<Row> := [];
      var i := 0;
      while i < |counts|
        invariant 0 <= i <= |counts| && counts == old(counts)
        invariant kept == Held(counts[..i])
      {
        assert counts[..i + 1][..i] == counts[..i];
        if counts[i].count > 0 {
          kept := kept + [counts[i]];
        }
        i := i + 1;
      }
      assert counts[..i] == counts;
      counts := kept;
    }

    method Clear()
      requires Valid()
      modifies this
      ensures Valid() && View() == Stock([], 0, capacity, old(rev) + 1)
    {
      counts := [];
      total := 0;
      rev := rev + 1;
    }

    method Add(id: BlockId, n: nat) returns (all: bool)
      requires Valid()
      modifies this
      ensures Valid()
      ensures (View(), all) == AfterAdd(old(View()), id, n)
    {
      hide Put, Distinct, AllHeld, Units;
      AddCounts(View(), id, n);
      if n == 0 {
        return true;
      }
      var room := (if capacity < total then 0 else capacity - total) % COUNT_END;
      var take := if n < room then n else room;
      if take == 0 {
        return false;
      }
      var held := CountOf(id);
      Set(id, held + take);
      total := total + take;
      rev := rev + 1;
      return take == n;
    }

    method Consume(id: BlockId, n: nat) returns (ok: bool)
      requires Valid()
      modifies this
      ensures Valid()
      ensures (View(), ok) == AfterConsume(old(View()), id, n)
    {
      hide Put, Held, Distinct, AllHeld, Units;
      ConsumeCounts(View(), id, n);
      if n == 0 {
        return true;
      }
      var held := CountOf(id);
      if held < n {
        return false;
      }
      Lowered(counts, id, n);
      Set(id, held - n);
      total := total - n;
      Retain();
      rev := rev + 1;
      return true;
    }

    method Revoke(id: BlockId, n: nat)
      requires Valid()
      modifies this
      ensures Valid()
      ensures View() == AfterRevoke(old(View()), id, n)
    {
      hide Put, Held, Distinct, AllHeld, Units;
      RevokeCounts(View(), id, n);
      if n == 0 {
        return;
      }
      var held := CountOf(id);
      var take := if held < n then held else n;
      if take > 0 {
        Lowered(counts, id, take);
        Set(id, held - take);
        total := total - take;
        Retain();
        rev := rev + 1;
      }
    }
  }

  // ----- the portable form -----

  datatype Item<S> = Item(spec: S, count: nat)

  function ToPortable<S>(rows: seq<Row>, specOf: BlockId -> S): seq<Item<S>> {
    seq(|rows|, i requires 0 <= i < |rows| => Item(specOf(rows[i].id), rows[i].count))
  }

  datatype Parsed = Unknown | Known(id: BlockId)

  /** What loading portable items makes of a stock: known ones are added in order, unknown ones skipped. */
  function AfterLoad<S>(s: Stock, items: seq<Item<S>>, parse: S -> Parsed): Stock {
    if items == [] then s
    else
      var init := AfterLoad(s, items[..|items| - 1], parse);
      match parse(items[|items| - 1].spec)
      case Unknown => init
      case Known(id) => AfterAdd(init, id, items[|items| - 1].count).0
  }

  lemma {:induction false} PutNew(rows: seq<Row>, id: BlockId, n: nat)
    requires !Has(rows, id)
    ensures Put(rows, id, n) == rows + [Row(id, n)] && Count(rows, id) == 0
  {
    PutAt(rows, id, n, |rows|);
    CountNone(rows, id);
  }

  lemma {:induction false} UnitsOfPrefix(rows: seq<Row>, k: nat)
    requires k <= |rows|
    ensures Units(rows[..k]) <= Units(rows)
    ensures k < |rows| ==> Units(rows[..k + 1]) == Units(rows[..k]) + rows[k].count
  {
    if k > 0 {
      UnitsOfPrefix(rows[1..], k - 1);
      assert rows[..k][1..] == rows[1..][..k - 1];
      if k < |rows| {
        assert rows[..k + 1][1..] == rows[1..][..k];
      }
    } else if rows != [] {
      assert rows[..1] == [rows[0]] && [rows[0]][1..] == [];
    }
  }

  /** With the rows before it loaded, the `i`th finds room for all its units. */
  predicate Fits(rows: seq<Row>, capacity: nat, i: nat)
    requires i < |rows|
  {
    rows[i].count <= Room(Stock([], Units(rows[..i]), capacity, 0))
  }

  ghost predicate AllFit(rows: seq<Row>, capacity: nat, n: nat)
    requires n <= |rows|
  {
    forall i :: 0 <= i < n ==> Fits(rows, capacity, i)
  }

  ghost predicate AllNamed<S>(rows: seq<Row>, specOf: BlockId -> S, parse: S -> Parsed) {
    forall i :: 0 <= i < |rows| ==> parse(specOf(rows[i].id)) == Known(rows[i].id)
  }

  /** What loading the first `k` rows saved makes of an empty stock. */
  function Loaded<S>(rows: seq<Row>, specOf: BlockId -> S, parse: S -> Parsed, capacity: nat, rev: nat, k: nat): Stock
    requires k <= |rows|
  {
    AfterLoad(Stock([], 0, capacity, rev), ToPortable(rows, specOf)[..k], parse)
  }

  lemma LoadedNext<S>(
    rows: seq<Row>, specOf: BlockId -> S, parse: S -> Parsed, capacity: nat, rev: nat, k: nat)
    requires k < |rows| && parse(specOf(rows[k].id)) == Known(rows[k].id)
    ensures Loaded(rows, specOf, parse, capacity, rev, k + 1)
         == AfterAdd(Loaded(rows, specOf, parse, capacity, rev, k), rows[k].id, rows[k].count).0
  {
    hide AfterLoad, AfterAdd;
    LoadStep(Stock([], 0, capacity, rev), ToPortable(rows, specOf), parse, k + 1);
  }

  /** Of the first `k` rows never more is loaded than was saved, and less from the first that does not fit. */
  ghost predicate Reaches(rows: seq<Row>, capacity: nat, k: nat, t: Stock)
    requires k <= |rows|
  {
    && t.Valid() && t.capacity == capacity && t.total <= Units(rows[..k])
    && (t.total == Units(rows[..k]) <==> AllFit(rows, capacity, k))
  }

  lemma ReachesMore(rows: seq<Row>, capacity: nat, k: nat, t: Stock)
    requires k < |rows| && Reaches(rows, capacity, k, t)
    ensures Reaches(rows, capacity, k + 1, AfterAdd(t, rows[k].id, rows[k].count).0)
  {
    UnitsOfPrefix(rows, k);
    FitsMore(rows, capacity, k);
    hide AllFit, AfterAdd, Units, Room, Stock.Valid;
    AddReaches(t, rows[k].id, rows[k].count, Units(rows[..k]));
  }

  lemma {:induction false} LoadedReaches<S>(
    rows: seq<Row>, specOf: BlockId -> S, parse: S -> Parsed, capacity: nat, rev: nat, k: nat)
    requires AllNamed(rows, specOf, parse) && k <= |rows|
    ensures Reaches(rows, capacity, k, Loaded(rows, specOf, parse, capacity, rev, k))
  {
    if k > 0 {
      assert parse(specOf(rows[k - 1].id)) == Known(rows[k - 1].id);
      hide *;
      LoadedReaches(rows, specOf, parse, capacity, rev, k - 1);
      LoadedNext(rows, specOf, parse, capacity, rev, k - 1);
      ReachesMore(rows, capacity, k - 1, Loaded(rows, specOf, parse, capacity, rev, k - 1));
    }
  }

  lemma FitsMore(rows: seq<Row>, capacity: nat, k: nat)
    requires k < |rows|
    ensures AllFit(rows, capacity, k + 1)
      <==> AllFit(rows, capacity, k) && rows[k].count <= Room(Stock([], Units(rows[..k]), capacity, 0))
  {
    assert AllFit(rows, capacity, k + 1) ==> Fits(rows, capacity, k);
  }

  /** Adding to at most `want` units reaches all of them only from `want` itself, with room for the rest. */
  lemma AddReaches(t: Stock, id: BlockId, n: nat, want: nat)
    requires t.Valid() && t.total <= want
    ensures var u := AfterAdd(t, id, n).0;
            && u.Valid() && u.capacity == t.capacity && u.total <= want + n
            && (u.total == want + n <==> t.total == want && n <= Room(Stock([], want, t.capacity, 0)))
  {
    hide AfterAdd, Stock.Valid;
    AddCounts(t, id, n);
  }

  /** As long as every row fits, the rows come back one by one. */
  lemma {:induction false} LoadedRows<S>(
    rows: seq<Row>, specOf: BlockId -> S, parse: S -> Parsed, capacity: nat, rev: nat, k: nat)
    requires Distinct(rows) && AllHeld(rows) && AllNamed(rows, specOf, parse)
    requires k <= |rows| && AllFit(rows, capacity, k)
    ensures Loaded(rows, specOf, parse, capacity, rev, k) == Stock(rows[..k], Units(rows[..k]), capacity, rev + k)
  {
    if k > 0 {
      var n := k - 1;
      assert parse(specOf(rows[n].id)) == Known(rows[n].id) && AllFit(rows, capacity, n);
      NextRow(rows, n);
      FitsMore(rows, capacity, n);
      hide *;
      LoadedRows(rows, specOf, parse, capacity, rev, n);
      LoadedNext(rows, specOf, parse, capacity, rev, n);
      AddNewRow(rows[..n], rows[n].id, rows[n].count, Units(rows[..n]), capacity, rev + n);
    }
  }

  /** The next row is of a new block and holds something. */
  lemma NextRow(rows: seq<Row>, k: nat)
    requires Distinct(rows) && AllHeld(rows) && k < |rows|
    ensures rows[..k + 1] == rows[..k] + [rows[k]]
    ensures !Has(rows[..k], rows[k].id) && rows[k].count > 0
    ensures Units(rows[..k + 1]) == Units(rows[..k]) + rows[k].count
  {
    UnitsOfPrefix(rows, k);
    hide Units;
  }

  /** Loading what was saved gives the same rows in the same order, whatever was held before, if and
      only if each row in turn finds room for its units, as the inventory counts room; so always when
      the capacity is not smaller, nor wider than a count. Every spec must name its block. */
  lemma PortableRoundTrip<S>(s: Stock, specOf: BlockId -> S, parse: S -> Parsed, capacity: nat, rev: nat)
    requires s.Valid() && AllNamed(s.rows, specOf, parse)
    ensures var t := AfterLoad(Stock([], 0, capacity, rev), ToPortable(s.rows, specOf), parse);
            && (t.rows == s.rows <==> AllFit(s.rows, capacity, |s.rows|))
            && (t == Stock(s.rows, s.total, capacity, rev + |s.rows|) <==> AllFit(s.rows, capacity, |s.rows|))
    ensures s.capacity <= capacity < COUNT_END ==> AllFit(s.rows, capacity, |s.rows|)
  {
    var n := |s.rows|;
    assert s.rows[..n] == s.rows && ToPortable(s.rows, specOf)[..n] == ToPortable(s.rows, specOf);
    LoadedReaches(s.rows, specOf, parse, capacity, rev, n);
    if AllFit(s.rows, capacity, n) {
      LoadedRows(s.rows, specOf, parse, capacity, rev, n);
    }
    if s.capacity <= capacity < COUNT_END {
      EachFits(s, capacity);
    }
  }

  lemma EachFits(s: Stock, capacity: nat)
    requires s.Valid() && s.capacity <= capacity < COUNT_END
    ensures AllFit(s.rows, capacity, |s.rows|)
  {
    forall i | 0 <= i < |s.rows| ensures Fits(s.rows, capacity, i) {
      UnitsOfPrefix(s.rows, i);
      UnitsOfPrefix(s.rows, i + 1);
      hide Units;
      Narrowed(capacity - Units(s.rows[..i]));
    }
  }

  lemma LoadStep<S>(s: Stock, items: seq<Item<S>>, parse: S -> Parsed, k: nat)
    requires 0 < k <= |items|
    ensures AfterLoad(s, items[..k], parse) ==
            match parse(items[k - 1].spec)
            case Unknown => AfterLoad(s, items[..k - 1], parse)
            case Known(id) => AfterAdd(AfterLoad(s, items[..k - 1], parse), id, items[k - 1].count).0
  {
    assert items[..k][..k - 1] == items[..k - 1] && items[..k][k - 1] == items[k - 1];
  }

  lemma AddNewRow(rows: seq<Row>, id: BlockId, n: nat, total: nat, capacity: nat, rev: nat)
    requires !Has(rows, id) && 0 < n <= Room(Stock([], total, capacity, 0))
    ensures AfterAdd(Stock(rows, total, capacity, rev), id, n).0
      == Stock(rows + [Row(id, n)], total + n, capacity, rev + 1)
  {
    PutNew(rows, id, n);
  }

  /** Replace the contents of an inventory. Returns how many items were skipped as unknown. */
  method LoadPortable<S>(inv: Inventory, items: seq<Item<S>>, parse: S -> Parsed) returns (skipped: nat)
    requires inv.Valid()
    modifies inv
    ensures inv.Valid() && skipped == |items| - KnownItems(items, parse)
    ensures inv.View() == AfterLoad(Stock([], 0, inv.capacity, old(inv.rev) + 1), items, parse)
  {
    skipped := 0;
    inv.Clear();
    ghost var start := inv.View();
    var i := 0;
    while i < |items|
      invariant 0 <= i <= |items| && inv.Valid()
      invariant skipped == i - KnownItems(items[..i], parse)
      invariant inv.View() == AfterLoad(start, items[..i], parse)
    {
      assert items[..i + 1][..i] == items[..i];
      match parse(items[i].spec) {
        case Unknown => skipped := skipped + 1;
        case Known(id) => var _ := inv.Add(id, items[i].count);
      }
      i := i + 1;
    }
    assert items[..i] == items;
  }

  function KnownItems<S>(items: seq<Item<S>>, parse: S -> Parsed): (n: nat)
    ensures n <= |items|
  {
    if items == [] then 0
    else KnownItems(items[..|items| - 1], parse) + if parse(items[|items| - 1].spec).Known? then 1 else 0
  }

  lemma {:induction false} PutAt(rows: seq<Row>, id: BlockId, n: nat, at: nat)
    requires at <= |rows| && (at < |rows| ==> rows[at].id == id)
    requires forall i :: 0 <= i < at ==> rows[i].id != id
    ensures Put(rows, id, n) == if at < |rows| then rows[at := Row(id, n)] else rows + [Row(id, n)]
  {
    if at > 0 {
      PutAt(rows[1..], id, n, at - 1);
      assert rows == [rows[0]] + rows[1..];
    }
  }
}
