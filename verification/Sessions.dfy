/** The voice session machine: epochs, floors and streams, as functions of the session table. */
module Sessions {
  import opened Common
  import opened SoundState
  import opened Mixing

  type Table = map<nat, Session>

  /** What a packet asks for; `floor` is the epoch to keep should the opening fail. */
  datatype Act = Drop | Feed | OpenNew(floor: Option<nat>) | Bump(was: nat)

  function Decide(t: Table, key: nat, epoch: nat): Act {
    if key !in t then OpenNew(None)
    else match t[key]
         case Tombstone(floor) => if epoch > floor then OpenNew(Some(floor)) else Drop
         case Streaming(current, _, _, _, _, _) =>
           if epoch < current then Drop else if epoch == current then Feed else Bump(current)
  }

  function Fresh(epoch: nat, v: Handle): Session {
    Streaming(epoch, v, false, None, Unheard(), false)
  }

  /** An epoch beyond all the session is known by; a session not known has none. */
  predicate Newer(t: Table, key: nat, epoch: nat) {
    key !in t || t[key].epoch < epoch
  }

  /** The table after an opening: a stream when one was granted, else the floor survives. */
  function AfterOpen(t: Table, key: nat, epoch: nat, floor: Option<nat>, grant: Option<Handle>): Table {
    match grant
    case Some(v) => t[key := Fresh(epoch, v)]
    case None => if floor.Some? then t[key := Tombstone(floor.value)] else t
  }

  function AfterPacket(t: Table, key: nat, epoch: nat, grant: Option<Handle>): Table {
    match Decide(t, key, epoch)
    case Drop => t
    case Feed => t
    case OpenNew(floor) => AfterOpen(t, key, epoch, floor, grant)
    case Bump(was) => AfterOpen(t - {key}, key, epoch, Some(was), grant)
  }

  /** Closing a stream leaves its epoch as a tombstone; closing a tombstone forgets it. */
  function AfterClose(t: Table, key: nat): Table {
    if key in t && t[key].Streaming? then t[key := Tombstone(t[key].epoch)] else t - {key}
  }

  function AfterPresent(t: Table, key: nat, present: bool, at: Option<Position>): Table {
    if key in t && t[key].Streaming?
    then t[key := t[key].(present := present, lastAt := if at.Some? then at else t[key].lastAt)]
    else t
  }

  // ----- runs -----

  /** `Mixed` is any number of frames: they only touch what the mixer hears. A new world starts with no session. */
  datatype Event =
    | Ingest(key: nat, epoch: nat, grant: Option<Handle>)
    | Close(key: nat)
    | Present(key: nat, present: bool, at: Option<Position>)
    | Mixed(table: Table)
    | NewWorld

  predicate SameStream(a: Session, b: Session) {
    match a
    case Tombstone(_) => b == a
    case Streaming(epoch, v, _, _, _, _) => b.Streaming? && b.epoch == epoch && b.voice == v
  }

  ghost predicate OnlyHeard(t: Table, u: Table) {
    u.Keys == t.Keys && forall key :: key in t ==> SameStream(t[key], u[key])
  }

  ghost predicate Allowed(t: Table, e: Event) {
    e.Mixed? ==> OnlyHeard(t, e.table)
  }

  function Next(t: Table, e: Event): Table {
    match e
    case Ingest(key, epoch, grant) => AfterPacket(t, key, epoch, grant)
    case Close(key) => AfterClose(t, key)
    case Present(key, present, at) => AfterPresent(t, key, present, at)
    case Mixed(table) => table
    case NewWorld => map[]
  }

  function End(t: Table, run: seq<Event>): Table
    decreases |run|
  {
    if run == [] then t else End(Next(t, run[0]), run[1..])
  }

  ghost predicate AllowedRun(t: Table, run: seq<Event>)
    decreases |run|
  {
    run == [] || (Allowed(t, run[0]) && AllowedRun(Next(t, run[0]), run[1..]))
  }

  /** The two events that forget a floor: closing its tombstone, and leaving the world. */
  predicate Forgets(t: Table, e: Event, key: nat) {
    key in t && (e.NewWorld? || (e == Close(key) && t[key].Tombstone?))
  }

  ghost predicate NeverForgets(t: Table, run: seq<Event>, key: nat)
    decreases |run|
  {
    run == [] || (!Forgets(t, run[0], key) && NeverForgets(Next(t, run[0]), run[1..], key))
  }

  /** The epoch of the stream an event opens for `key`, if any. */
  function NewStream(t: Table, e: Event, key: nat): seq<nat> {
    match e
    case Ingest(k, epoch, grant) =>
      var act := Decide(t, k, epoch);
      if k == key && grant.Some? && (act.OpenNew? || act.Bump?) then [epoch] else []
    case _ => []
  }

  /** The epochs of the streams opened for `key`, in order. */
  function Opened(t: Table, run: seq<Event>, key: nat): seq<nat>
    decreases |run|
  {
    if run == [] then [] else NewStream(t, run[0], key) + Opened(Next(t, run[0]), run[1..], key)
  }

  /** The least epoch a key still accepts is its floor: absent keys accept anything. */
  predicate AtLeast(t: Table, key: nat, floor: nat) {
    key in t && t[key].epoch >= floor
  }

  /** A floor stands, or rises, exactly unless its tombstone is closed or the world left, even when the
      backend refuses the stream. */
  lemma FloorStands(t: Table, e: Event, key: nat)
    requires key in t && Allowed(t, e)
    ensures AtLeast(Next(t, e), key, t[key].epoch) <==> !Forgets(t, e, key)
  {
    if e.Mixed? {
      assert SameStream(t[key], e.table[key]);
    }
  }

  /** A packet of this epoch is turned away, or feeds the stream it belongs to. */
  predicate OpensNothing(t: Table, key: nat, epoch: nat) {
    var act := Decide(t, key, epoch);
    act.Drop? || act.Feed?
  }

  /** Stale epochs stay shut out exactly unless the floor is forgotten. */
  lemma StaleStaysShut(t: Table, e: Event, key: nat)
    requires key in t && Allowed(t, e)
    ensures (forall epoch: nat :: epoch <= t[key].epoch ==> OpensNothing(Next(t, e), key, epoch))
      <==> !Forgets(t, e, key)
  {
    FloorStands(t, e, key);
    if Forgets(t, e, key) {
      assert !OpensNothing(Next(t, e), key, t[key].epoch);
    }
  }

  lemma {:induction false} FloorStandsOverRuns(t: Table, run: seq<Event>, key: nat)
    requires key in t && AllowedRun(t, run) && NeverForgets(t, run, key)
    ensures AtLeast(End(t, run), key, t[key].epoch)
    decreases |run|
  {
    if run != [] {
      FloorStands(t, run[0], key);
      FloorStandsOverRuns(Next(t, run[0]), run[1..], key);
    }
  }

  ghost predicate Rising(s: seq<nat>) {
    forall i, j :: 0 <= i < j < |s| ==> s[i] < s[j]
  }

  /** The epochs of successive streams for a key strictly increase, all above the floor it starts with. */
  lemma {:induction false} OpenedEpochsRise(t: Table, run: seq<Event>, key: nat)
    requires AllowedRun(t, run) && NeverForgets(t, run, key)
    ensures Rising(Opened(t, run, key))
    ensures key in t ==> forall i :: 0 <= i < |Opened(t, run, key)| ==> Opened(t, run, key)[i] > t[key].epoch
    decreases |run|
  {
    if run != [] {
      var u := Next(t, run[0]);
      OpenedEpochsRise(u, run[1..], key);
      if key in t {
        FloorStands(t, run[0], key);
      }
    }
  }

  lemma RunOfOne(t: Table, e: Event, key: nat)
    ensures End(t, [e]) == Next(t, e) && Opened(t, [e], key) == NewStream(t, e, key)
    ensures AllowedRun(t, [e]) <==> Allowed(t, e)
  {
    assert [e][1..] == [];
    assert AllowedRun(Next(t, e), []);
  }

  /** Until a stream of an epoch, or of a later one, is granted, the epoch stays beyond what is known,
      whatever was refused, closed or left: its next packet asks for a stream again. */
  lemma {:induction false} StaysNewer(t: Table, run: seq<Event>, key: nat, epoch: nat)
    requires AllowedRun(t, run) && Newer(t, key, epoch)
    requires forall i :: 0 <= i < |Opened(t, run, key)| ==> Opened(t, run, key)[i] < epoch
    ensures Newer(End(t, run), key, epoch)
    decreases |run|
  {
    if run != [] {
      var u, now := Next(t, run[0]), NewStream(t, run[0], key);
      var later := Opened(u, run[1..], key);
      assert Opened(t, run, key) == now + later;
      forall i | 0 <= i < |later| ensures later[i] < epoch {
        assert (now + later)[|now| + i] == later[i];
      }
      assert now != [] ==> Opened(t, run, key)[0] == now[0];
      NewerNext(t, run[0], key, epoch);
      StaysNewer(u, run[1..], key, epoch);
    }
  }

  lemma NewerNext(t: Table, e: Event, key: nat, epoch: nat)
    requires Allowed(t, e) && Newer(t, key, epoch)
    requires NewStream(t, e, key) != [] ==> NewStream(t, e, key)[0] < epoch
    ensures Newer(Next(t, e), key, epoch)
  {
    if e.Mixed? && key in t {
      assert SameStream(t[key], e.table[key]);
    }
  }

  /** A run taken in two: where it ends, and the streams it opens. */
  lemma {:induction false} RunJoin(t: Table, a: seq<Event>, b: seq<Event>, key: nat)
    ensures End(t, a + b) == End(End(t, a), b)
    ensures Opened(t, a + b, key) == Opened(t, a, key) + Opened(End(t, a), b, key)
    ensures AllowedRun(t, a + b) <==> AllowedRun(t, a) && AllowedRun(End(t, a), b)
    decreases |a|
  {
    hide Next, NewStream, Allowed;
    if a == [] {
      assert a + b == b;
    } else {
      assert (a + b)[1..] == a[1..] + b;
      RunJoin(Next(t, a[0]), a[1..], b, key);
    }
  }

  /** In any stretch of a run that does not forget the key's floor, the epochs it opens rise strictly. */
  lemma StretchRises(t: Table, run: seq<Event>, i: nat, j: nat, key: nat)
    requires AllowedRun(t, run) && i <= j <= |run|
    requires NeverForgets(End(t, run[..i]), run[i..j], key)
    ensures var stretch := Opened(End(t, run[..i]), run[i..j], key);
            && Rising(stretch)
            && Opened(t, run, key) == Opened(t, run[..i], key) + stretch + Opened(End(t, run[..j]), run[j..], key)
  {
    assert run[..j] == run[..i] + run[i..j] && run == run[..j] + run[j..];
    RunJoin(t, run[..i], run[i..j], key);
    RunJoin(t, run[..j], run[j..], key);
    OpenedEpochsRise(End(t, run[..i]), run[i..j], key);
  }

  /** Without a forgotten floor a stale epoch never opens a stream again; closing twice lets it. */
  lemma ClosedTwiceReopensStale(v: Handle, w: Handle)
    ensures var run := [Ingest(1, 5, Some(v)), Close(1), Close(1), Ingest(1, 3, Some(w))];
            AllowedRun(map[], run) && Opened(map[], run, 1) == [5, 3]
  {
    var t0: Table := map[];
    var run := [Ingest(1, 5, Some(v)), Close(1), Close(1), Ingest(1, 3, Some(w))];
    var run1, run2, run3 := run[1..], run[2..], run[3..];
    var t1 := Next(t0, run[0]);
    var t2 := Next(t1, run1[0]);
    var t3 := Next(t2, run2[0]);
    assert t3 == map[];
    assert run1[1..] == run2 && run2[1..] == run3 && run3[1..] == [];
    assert NewStream(t0, run[0], 1) == [5] && NewStream(t3, run3[0], 1) == [3];
    assert Opened(t3, run3, 1) == [3] + Opened(Next(t3, run3[0]), run3[1..], 1);
    assert Opened(t2, run2, 1) == Opened(t3, run3, 1);
    assert Opened(t1, run1, 1) == Opened(t2, run2, 1);
    assert AllowedRun(t3, run3) && AllowedRun(t2, run2) && AllowedRun(t1, run1);
  }
}
