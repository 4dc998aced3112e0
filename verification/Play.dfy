/** Optimistic edits: predicted at once, confirmed or rolled back by the server's verdict. */
module Play {
  import opened Inventories

  const AIR: BlockId := 0

  datatype Cell = Cell(x: int, y: int, z: int)

  type World = Cell -> BlockId

  function SetCell(w: World, cell: Cell, id: BlockId): World {
    (c: Cell) => if c == cell then id else w(c)
  }

  /** What to give back if the server rejects the edit. A break is revoked only if it fit. */
  datatype Kind = Broke(id: BlockId, gained: bool) | Placed(id: BlockId)

  datatype Edit = Edit(cell: Cell, prev: BlockId, kind: Kind)

  /** How an edit leaves: with no server, on a connection that refuses it, or under a fresh request. */
  datatype Link = Offline | Refused | Sent(req: nat)

  datatype Client = Client(world: World, stock: Stock, pending: map<nat, Edit>)

  // ----- the transitions, as functions of the value -----

  function GivenBack(s: Stock, kind: Kind): Stock {
    match kind
    case Broke(id, gained) => if gained then AfterRevoke(s, id, 1) else s
    case Placed(id) => AfterAdd(s, id, 1).0
  }

  /** Undo an edit. `restore` is false when something newer already owns the cell. */
  function RolledBack(c: Client, e: Edit, restore: bool): Client {
    Client(if restore then SetCell(c.world, e.cell, e.prev) else c.world, GivenBack(c.stock, e.kind), c.pending)
  }

  function Predicted(c: Client, e: Edit, link: Link): Client {
    match link
    case Offline => c
    case Refused => RolledBack(c, e, true)
    case Sent(req) => c.(pending := c.pending[req := e])
  }

  function CommitBreak(c: Client, cell: Cell, link: Link): Client {
    var id := c.world(cell);
    var (stock, gained) := AfterAdd(c.stock, id, 1);
    Predicted(Client(SetCell(c.world, cell, AIR), stock, c.pending), Edit(cell, id, Broke(id, gained)), link)
  }

  function CommitPlace(c: Client, cell: Cell, id: BlockId, link: Link): Client {
    Predicted(c.(world := SetCell(c.world, cell, id)), Edit(cell, c.world(cell), Placed(id)), link)
  }

  datatype Act =
    | Break(cell: Cell, link: Link)
    | Place(cell: Cell, id: BlockId, blocked: bool, link: Link)
    | Accepted(req: nat)
    | Rejected(req: nat, restore: bool)
    | Remote(cell: Cell, id: BlockId)

  function Next(c: Client, act: Act): Client {
    match act
    case Break(cell, link) => CommitBreak(c, cell, link)
    case Place(cell, id, blocked, link) =>
      if blocked || Count(c.stock.rows, id) == 0 then c
      else CommitPlace(c.(stock := AfterConsume(c.stock, id, 1).0), cell, id, link)
    case Accepted(req) => c.(pending := c.pending - {req})
    case Rejected(req, restore) =>
      if req !in c.pending then c
      else RolledBack(c.(pending := c.pending - {req}), c.pending[req], restore)
    case Remote(cell, id) => c.(world := SetCell(c.world, cell, id))
  }

  // ----- a verdict acts once -----

  /** After a verdict its request is settled, and a verdict on a settled request changes nothing. */
  lemma VerdictActsOnce(c: Client, act: Act)
    requires act.Accepted? || act.Rejected?
    ensures act.req !in Next(c, act).pending
    ensures act.req !in c.pending ==> Next(c, act) == c
    ensures forall restore :: Next(Next(c, act), Rejected(act.req, restore)) == Next(c, act)
    ensures Next(Next(c, act), Accepted(act.req)) == Next(c, act)
  {
    if act.req !in c.pending {
      assert c.pending - {act.req} == c.pending;
    }
    var d := Next(c, act);
    assert d.pending - {act.req} == d.pending;
  }

  /** An accepted edit stands as it was predicted: only its request is settled. */
  lemma AcceptedStands(c: Client, req: nat)
    ensures Next(c, Accepted(req)).world == c.world && Next(c, Accepted(req)).stock == c.stock
    ensures Next(c, Accepted(req)).pending == c.pending - {req}
  {
  }

  // ----- an edit happens -----

  /** Breaking clears the cell and no other, and gains one unit of what it held if there is room. A sent edit
      is pending, with what the cell held. */
  lemma BreakHappens(c: Client, cell: Cell, link: Link)
    requires c.stock.Valid() && !link.Refused?
    ensures var d, id := Next(c, Break(cell, link)), c.world(cell);
            && d.world(cell) == AIR && (forall at :: at != cell ==> d.world(at) == c.world(at))
            && (forall k :: Count(d.stock.rows, k) == Count(c.stock.rows, k)
                  + if k == id && Room(c.stock) > 0 then 1 else 0)
            && (link.Offline? ==> d.pending == c.pending)
            && (link.Sent? ==> d.pending == c.pending[link.req := Edit(cell, id, Broke(id, Room(c.stock) > 0))])
  {
    AddCounts(c.stock, c.world(cell), 1);
  }

  /** Placing puts the block into the cell and no other, and spends one unit of it; a blocked cell, or a block
      not held, changes nothing. */
  lemma PlaceHappens(c: Client, cell: Cell, id: BlockId, blocked: bool, link: Link)
    requires c.stock.Valid() && !link.Refused?
    ensures var d := Next(c, Place(cell, id, blocked, link));
            if blocked || Count(c.stock.rows, id) == 0 then d == c
            else
              && d.world(cell) == id && (forall at :: at != cell ==> d.world(at) == c.world(at))
              && (forall k :: Count(d.stock.rows, k) == Count(c.stock.rows, k) - if k == id then 1 else 0)
              && (link.Offline? ==> d.pending == c.pending)
              && (link.Sent? ==> d.pending == c.pending[link.req := Edit(cell, c.world(cell), Placed(id))])
  {
    ConsumeCounts(c.stock, id, 1);
  }

  // ----- a commit and its own rollback -----

  ghost predicate SameHoldings(c: Client, d: Client) {
    && (forall cell :: c.world(cell) == d.world(cell))
    && (forall id :: Count(c.stock.rows, id) == Count(d.stock.rows, id))
    && c.stock.total == d.stock.total && c.pending == d.pending
  }

  /** The placement happens. */
  predicate Places(c: Client, act: Act)
    requires act.Place?
  {
    !act.blocked && Count(c.stock.rows, act.id) > 0
  }

  /** An edit that cannot be sent leaves every cell and every count as they were, the unit that a
      placement spent included, unless the inventory's room is wider than a count and loses it. */
  lemma UnsentEditChangesNothing(c: Client, act: Act)
    requires c.stock.Valid() && (act.Break? || act.Place?) && act.link.Refused?
    ensures SameHoldings(c, Next(c, act)) <==> act.Break? || !Places(c, act) || Refundable(c.stock, 1)
    ensures c.stock.capacity < COUNT_END ==> SameHoldings(c, Next(c, act))
  {
    match act
    case Break(cell, _) =>
      var id := c.world(cell);
      AddCounts(c.stock, id, 1);
      if AfterAdd(c.stock, id, 1).1 {
        GainAndRevoke(c.stock, id, 1);
      } else {
        assert AfterAdd(c.stock, id, 1).0 == c.stock;
      }
    case Place(cell, id, blocked, _) =>
      if Places(c, act) {
        SpendAndRefund(c.stock, id, 1);
      }
  }

  /** A verdict that turns an edit down at once undoes it as far as a connection that refuses it would. */
  lemma RejectedAtOnce(c: Client, act: Act, req: nat)
    requires c.stock.Valid() && (act.Break? || act.Place?) && act.link == Sent(req) && req !in c.pending
    ensures Next(Next(c, act), Rejected(req, true)) == Next(c, act.(link := Refused))
    ensures SameHoldings(c, Next(Next(c, act), Rejected(req, true)))
      <==> act.Break? || !Places(c, act) || Refundable(c.stock, 1)
  {
    UnsentEditChangesNothing(c, act.(link := Refused));
    hide AfterAdd, AfterConsume, GivenBack, SetCell;
    var sent := Next(c, act);
    if req in sent.pending {
      assert sent.pending - {req} == c.pending;
    }
  }

  // ----- accounting -----

  function CellsHolding(region: set<Cell>, w: World, id: BlockId): nat {
    |set c | c in region && w(c) == id|
  }

  /** Cells of the region holding `id`, and units carried. */
  function Held(region: set<Cell>, c: Client, id: BlockId): nat {
    CellsHolding(region, c.world, id) + Count(c.stock.rows, id)
  }

  function One(b: bool): int {
    if b then 1 else 0
  }

  lemma OneCellChanged(region: set<Cell>, w: World, cell: Cell, id: BlockId, k: BlockId)
    requires cell in region
    ensures CellsHolding(region, SetCell(w, cell, id), k) == CellsHolding(region, w, k) - One(w(cell) == k)
      + One(id == k)
  {
    var before, after := set c | c in region && w(c) == k, set c | c in region && SetCell(w, cell, id)(c) == k;
    forall c ensures c in after <==> c in region && if c == cell then id == k else w(c) == k {
    }
    hide SetCell;
    if w(cell) == k && id != k {
      assert after == before - {cell};
    } else if w(cell) != k && id == k {
      assert after == before + {cell};
    } else {
      assert after == before;
    }
  }

  /** Each cell has at most one pending edit. */
  ghost predicate Inv(region: set<Cell>, c: Client) {
    && c.stock.Valid()
    && (forall r :: r in c.pending ==> Sane(region, c.pending[r]))
    && (forall r, q :: r in c.pending && q in c.pending && r != q ==> c.pending[r].cell != c.pending[q].cell)
  }

  ghost predicate Sane(region: set<Cell>, e: Edit) {
    && e.cell in region
    && match e.kind
       case Broke(id, _) => e.prev == id
       case Placed(_) => e.prev == AIR
  }

  /** The cell still holds what the edit predicted: nothing newer owns it. */
  predicate Standing(w: World, e: Edit) {
    match e.kind
    case Broke(_, _) => w(e.cell) == AIR
    case Placed(id) => w(e.cell) == id
  }

  predicate Pending(c: Client, cell: Cell) {
    exists r :: r in c.pending && c.pending[r].cell == cell
  }

  /** Requests are fresh, no edit touches a cell with a pending edit, placements go into air, and a
      rejection restores no cell that something newer owns. Remote writes may fall anywhere. */
  predicate Clean(region: set<Cell>, c: Client, act: Act) {
    match act
    case Break(cell, link) => cell in region && !Pending(c, cell) && (link.Sent? ==> link.req !in c.pending)
    case Place(cell, id, _, link) =>
      cell in region && !Pending(c, cell) && c.world(cell) == AIR && (link.Sent? ==> link.req !in c.pending)
    case Accepted(_) => true
    case Rejected(req, restore) => req in c.pending && restore ==> Standing(c.world, c.pending[req])
    case Remote(cell, _) => cell in region
  }

  /** Units of `k` that an inventory without room, as it counts room, drops at this step. */
  function Dropped(c: Client, act: Act, k: BlockId): int {
    match act
    case Break(cell, link) => One(c.world(cell) == k && !link.Refused? && !AfterAdd(c.stock, k, 1).1)
    case Place(_, id, _, link) =>
      One(id == k && Places(c, act) && link.Refused? && !AfterAdd(AfterConsume(c.stock, k, 1).0, k, 1).1)
    case Rejected(req, restore) =>
      if req in c.pending && restore && c.pending[req].kind == Placed(k) then One(!AfterAdd(c.stock, k, 1).1) else 0
    case _ => 0
  }

  /** The unit a refused placement spent is dropped exactly when it cannot be taken back. */
  lemma RefusedPlacementDrops(c: Client, act: Act)
    requires c.stock.Valid() && act.Place? && Places(c, act) && act.link.Refused?
    ensures Dropped(c, act, act.id) == One(!Refundable(c.stock, 1))
  {
    ConsumeCounts(c.stock, act.id, 1);
    AddCounts(AfterConsume(c.stock, act.id, 1).0, act.id, 1);
  }

  /** Units of `k` that come back to a cell at this step and are not taken from the inventory: they were
      dropped when broken, or spent since. */
  function Regained(c: Client, act: Act, k: BlockId): int {
    match act
    case Rejected(req, restore) =>
      if req in c.pending && restore && c.pending[req].kind.Broke? && c.pending[req].kind.id == k then
        One(!c.pending[req].kind.gained || Count(c.stock.rows, k) == 0)
      else 0
    case _ => 0
  }

  /** Units of `k` that a rejection which restores no cell gives back, less those it takes back. */
  function Settled(c: Client, act: Act, k: BlockId): int {
    match act
    case Rejected(req, restore) =>
      if req in c.pending && !restore then
        match c.pending[req].kind
        case Broke(id, gained) => -One(id == k && gained && Count(c.stock.rows, k) > 0)
        case Placed(id) => One(id == k && AfterAdd(c.stock, k, 1).1)
      else 0
    case _ => 0
  }

  /** Cells of `k` that a remote write adds at this step. */
  function Written(c: Client, act: Act, k: BlockId): int {
    match act
    case Remote(cell, id) => One(id == k) - One(c.world(cell) == k)
    case _ => 0
  }

  lemma RollbackAccounts(region: set<Cell>, c: Client, e: Edit, k: BlockId)
    requires c.stock.Valid() && k != AIR && Sane(region, e) && Standing(c.world, e)
    ensures var d := RolledBack(c, e, true);
            && d.stock.Valid() && d.stock.capacity == c.stock.capacity
            && Held(region, d, k) == Held(region, c, k)
               - (if e.kind == Placed(k) then One(!AfterAdd(c.stock, k, 1).1) else 0)
               + (if e.kind.Broke? && e.kind.id == k then One(!e.kind.gained || Count(c.stock.rows, k) == 0) else 0)
  {
    OneCellChanged(region, c.world, e.cell, e.prev, k);
    match e.kind
    case Broke(id, gained) => RevokeCounts(c.stock, id, 1);
    case Placed(id) => AddCounts(c.stock, id, 1);
  }

  lemma SendKeeps(region: set<Cell>, c: Client, e: Edit, req: nat)
    requires Inv(region, c) && Sane(region, e) && req !in c.pending
    requires forall r :: r in c.pending ==> c.pending[r].cell != e.cell
    ensures Inv(region, c.(pending := c.pending[req := e]))
  {
  }

  lemma BreakAccounts(region: set<Cell>, c: Client, cell: Cell, link: Link, k: BlockId)
    requires Inv(region, c) && Clean(region, c, Break(cell, link)) && k != AIR
    ensures Inv(region, Next(c, Break(cell, link)))
    ensures Held(region, Next(c, Break(cell, link)), k) == Held(region, c, k) - Dropped(c, Break(cell, link), k)
  {
    var id := c.world(cell);
    var (stock, gained) := AfterAdd(c.stock, id, 1);
    AddCounts(c.stock, id, 1);
    OneCellChanged(region, c.world, cell, AIR, k);
    var mid, e := Client(SetCell(c.world, cell, AIR), stock, c.pending), Edit(cell, id, Broke(id, gained));
    assert Inv(region, mid) && Sane(region, e) && Standing(mid.world, e);
    match link
    case Offline =>
    case Refused =>
      RollbackAccounts(region, mid, e, k);
    case Sent(req) =>
      SendKeeps(region, mid, e, req);
  }

  lemma PlaceAccounts(region: set<Cell>, c: Client, act: Act, k: BlockId)
    requires Inv(region, c) && act.Place? && Clean(region, c, act) && k != AIR
    ensures Inv(region, Next(c, act))
    ensures Held(region, Next(c, act), k) == Held(region, c, k) - Dropped(c, act, k)
  {
    if !act.blocked && Count(c.stock.rows, act.id) > 0 {
      ConsumeCounts(c.stock, act.id, 1);
      OneCellChanged(region, c.world, act.cell, act.id, k);
      var stock := AfterConsume(c.stock, act.id, 1).0;
      var mid, e := Client(SetCell(c.world, act.cell, act.id), stock, c.pending), Edit(act.cell, AIR, Placed(act.id));
      assert Inv(region, mid) && Sane(region, e) && Standing(mid.world, e);
      match act.link
      case Offline =>
      case Refused =>
        RollbackAccounts(region, mid, e, k);
        AddCounts(stock, act.id, 1);
      case Sent(req) =>
        SendKeeps(region, mid, e, req);
    }
  }

  lemma RejectAccounts(region: set<Cell>, c: Client, act: Act, k: BlockId)
    requires Inv(region, c) && act.Rejected? && act.req in c.pending && Clean(region, c, act) && k != AIR
    ensures Inv(region, Next(c, act))
    ensures Held(region, Next(c, act), k)
            == Held(region, c, k) - Dropped(c, act, k) + Regained(c, act, k) + Settled(c, act, k)
  {
    var e := c.pending[act.req];
    var rest := c.(pending := c.pending - {act.req});
    if act.restore {
      RollbackAccounts(region, rest, e, k);
    } else {
      match e.kind
      case Broke(id, gained) => RevokeCounts(c.stock, id, 1);
      case Placed(id) => AddCounts(c.stock, id, 1);
    }
  }

  /** One clean step, accounted for to the unit. */
  lemma StepAccounts(region: set<Cell>, c: Client, act: Act, k: BlockId)
    requires Inv(region, c) && Clean(region, c, act) && k != AIR
    ensures Inv(region, Next(c, act))
    ensures Held(region, Next(c, act), k)
            == Held(region, c, k) - Dropped(c, act, k) + Regained(c, act, k) + Settled(c, act, k) + Written(c, act, k)
  {
    match act
    case Break(cell, link) => BreakAccounts(region, c, cell, link, k);
    case Place(_, _, _, _) => PlaceAccounts(region, c, act, k);
    case Accepted(req) =>
    case Rejected(req, restore) =>
      if req in c.pending {
        RejectAccounts(region, c, act, k);
      }
    case Remote(cell, id) =>
      OneCellChanged(region, c.world, cell, id, k);
  }

  function Run(c: Client, acts: seq<Act>): Client
    decreases |acts|
  {
    if acts == [] then c else Run(Next(c, acts[0]), acts[1..])
  }

  predicate CleanRun(region: set<Cell>, c: Client, acts: seq<Act>)
    decreases |acts|
  {
    acts == [] || (Clean(region, c, acts[0]) && CleanRun(region, Next(c, acts[0]), acts[1..]))
  }

  /** Units of `k` that left cells and inventory together over a run, net of those that came back. */
  function Lost(c: Client, acts: seq<Act>, k: BlockId): int
    decreases |acts|
  {
    if acts == [] then 0
    else
      Dropped(c, acts[0], k) - Regained(c, acts[0], k) - Settled(c, acts[0], k) - Written(c, acts[0], k)
      + Lost(Next(c, acts[0]), acts[1..], k)
  }

  /** Over every clean run, cells holding a block plus units of it carried change only by what an
      inventory without room dropped, what rejected breaks could not take back, what rejections that restore
      no cell gave or took, and what others wrote. */
  lemma {:induction false} RunAccounts(region: set<Cell>, c: Client, acts: seq<Act>, k: BlockId)
    requires Inv(region, c) && CleanRun(region, c, acts) && k != AIR
    ensures Inv(region, Run(c, acts))
    ensures Held(region, Run(c, acts), k) == Held(region, c, k) - Lost(c, acts, k)
    decreases |acts|
  {
    if acts != [] {
      StepAccounts(region, c, acts[0], k);
      RunAccounts(region, Next(c, acts[0]), acts[1..], k);
    }
  }

  // ----- runs that no remote write disturbs -----

  ghost predicate AllStanding(c: Client) {
    forall r :: r in c.pending ==> Standing(c.world, c.pending[r])
  }

  /** As `Clean`, but no remote write touches a cell with a pending edit, and rejections are of any kind. */
  predicate Undisturbed(region: set<Cell>, c: Client, act: Act) {
    match act
    case Rejected(_, _) => true
    case Remote(cell, _) => cell in region && !Pending(c, cell)
    case _ => Clean(region, c, act)
  }

  ghost predicate UndisturbedRun(region: set<Cell>, c: Client, acts: seq<Act>)
    decreases |acts|
  {
    acts == [] || (Undisturbed(region, c, acts[0]) && UndisturbedRun(region, Next(c, acts[0]), acts[1..]))
  }

  lemma UndisturbedStep(region: set<Cell>, c: Client, act: Act)
    requires Inv(region, c) && AllStanding(c) && Undisturbed(region, c, act)
    ensures Clean(region, c, act) && AllStanding(Next(c, act))
  {
    hide AfterAdd, AfterConsume, AfterRevoke, Count;
  }

  /** Where no remote write touches a pending cell, every rejection finds its cell as the edit left it: the
      run is clean, whatever the rejections restore. */
  lemma {:induction false} UndisturbedIsClean(region: set<Cell>, c: Client, acts: seq<Act>)
    requires Inv(region, c) && AllStanding(c) && UndisturbedRun(region, c, acts)
    ensures CleanRun(region, c, acts)
    decreases |acts|
  {
    if acts != [] {
      UndisturbedStep(region, c, acts[0]);
      StepAccounts(region, c, acts[0], AIR + 1);
      UndisturbedIsClean(region, Next(c, acts[0]), acts[1..]);
    }
  }

  // ----- what something newer owns -----

  /** A rejection that restores nothing changes no cell; it settles the request, and gives back or takes
      back exactly what one that restores would. */
  lemma NewerCellStands(c: Client, req: nat)
    requires req in c.pending
    ensures var kept, put := Next(c, Rejected(req, false)), Next(c, Rejected(req, true));
            && kept.world == c.world && kept.stock == put.stock
            && kept.pending == put.pending == c.pending - {req}
            && put.world(c.pending[req].cell) == c.pending[req].prev
            && forall cell :: cell != c.pending[req].cell ==> put.world(cell) == c.world(cell)
  {
  }

  /** The step leaves the cell alone. */
  predicate Spares(c: Client, act: Act, cell: Cell) {
    match act
    case Break(at, _) => at != cell
    case Place(at, _, _, _) => at != cell
    case Accepted(_) => true
    case Rejected(req, restore) => req in c.pending && restore ==> c.pending[req].cell != cell
    case Remote(at, _) => at != cell
  }

  ghost predicate SparesAll(c: Client, acts: seq<Act>, cell: Cell)
    decreases |acts|
  {
    acts == [] || (Spares(c, acts[0], cell) && SparesAll(Next(c, acts[0]), acts[1..], cell))
  }

  lemma {:induction false} SparedStands(c: Client, acts: seq<Act>, cell: Cell)
    requires SparesAll(c, acts, cell)
    ensures Run(c, acts).world(cell) == c.world(cell)
    decreases |acts|
  {
    if acts != [] {
      hide AfterAdd, AfterConsume, AfterRevoke, Count;
      assert Next(c, acts[0]).world(cell) == c.world(cell);
      SparedStands(Next(c, acts[0]), acts[1..], cell);
    }
  }

  lemma {:induction false} RunJoin(c: Client, a: seq<Act>, b: seq<Act>)
    ensures Run(c, a + b) == Run(Run(c, a), b)
    decreases |a|
  {
    if a == [] {
      assert a + b == b;
    } else {
      hide Next;
      assert (a + b)[1..] == a[1..] + b;
      RunJoin(Next(c, a[0]), a[1..], b);
    }
  }

  /** What the server last wrote to a cell is what the cell ends with: an edit of it that is rejected later,
      without restoring it, does not bring the older block back. */
  lemma RemoteWriteStands(c: Client, acts: seq<Act>, i: nat, cell: Cell, id: BlockId)
    requires i < |acts| && acts[i] == Remote(cell, id)
    requires SparesAll(Run(c, acts[..i + 1]), acts[i + 1..], cell)
    ensures Run(c, acts).world(cell) == id
  {
    assert acts == acts[..i + 1] + acts[i + 1..];
    RunJoin(c, acts[..i + 1], acts[i + 1..]);
    SparedStands(Run(c, acts[..i + 1]), acts[i + 1..], cell);
    hide Next;
    RunOneMore(c, acts, i);
    assert Next(Run(c, acts[..i]), Remote(cell, id)).world(cell) == id by { RemoteWrites(Run(c, acts[..i]), cell, id); }
  }

  lemma RemoteWrites(c: Client, cell: Cell, id: BlockId)
    ensures Next(c, Remote(cell, id)).world(cell) == id
  {
  }

  /** One poll that brings another's edit of a cell, then turns down the player's own edit of it. */
  lemma NewerEditSurvives(c: Client, cell: Cell, id: BlockId, req: nat)
    requires req in c.pending && c.pending[req].cell == cell
    ensures var end := Run(c, [Remote(cell, id), Rejected(req, false)]);
            && end.world(cell) == id && req !in end.pending
            && end.stock == GivenBack(c.stock, c.pending[req].kind)
  {
    var acts := [Remote(cell, id), Rejected(req, false)];
    var mid := Next(c, acts[0]);
    NewerCellStands(mid, req);
    assert acts[1..] == [acts[1]] && [acts[1]][1..] == [];
    assert Run(mid, [acts[1]]) == Run(Next(mid, acts[1]), []);
  }

  // ----- the mirror itself -----

  /** A server event of one poll. */
  datatype Incoming = EditSeen(cell: Cell, id: BlockId) | EditAccepted(req: nat) | EditRejected(req: nat, restore: bool)

  function ActOf(e: Incoming): Act {
    match e
    case EditSeen(cell, id) => Remote(cell, id)
    case EditAccepted(req) => Accepted(req)
    case EditRejected(req, restore) => Rejected(req, restore)
  }

  class Mirror {
    var world: World
    const inventory: Inventory
    var pending: map<nat, Edit>

    ghost function View(): Client
      reads this, inventory
    {
      Client(world, inventory.View(), pending)
    }

    ghost predicate Valid()
      reads this, inventory
    {
      inventory.Valid()
    }

    constructor (world: World, inventory: Inventory)
      requires inventory.Valid()
      ensures Valid() && View() == Client(world, inventory.View(), map[])
    {
      this.world := world;
      this.inventory := inventory;
      pending := map[];
    }

    /** Write `id` into the cell. Returns what it held. */
    method WriteCell(cell: Cell, id: BlockId) returns (prev: BlockId)
      modifies this`world
      ensures prev == old(world(cell)) && world == SetCell(old(world), cell, id)
    {
      prev := world(cell);
      world := SetCell(world, cell, id);
    }

    method Rollback(e: Edit, restore: bool)
      requires Valid()
      modifies this, inventory
      ensures Valid() && View() == RolledBack(old(View()), e, restore)
    {
      if restore {
        world := SetCell(world, e.cell, e.prev);
      }
      match e.kind {
        case Broke(id, gained) =>
          if gained {
            inventory.Revoke(id, 1);
          }
        case Placed(id) =>
          var _ := inventory.Add(id, 1);
      }
    }

    method Predict(e: Edit, link: Link)
      requires Valid()
      modifies this, inventory
      ensures Valid() && View() == Predicted(old(View()), e, link)
    {
      match link {
        case Offline =>
        case Refused => Rollback(e, true);
        case Sent(req) => pending := pending[req := e];
      }
    }

    /** Break the cell into the inventory, as a prediction. */
    method Break(cell: Cell, link: Link)
      requires Valid()
      modifies this, inventory
      ensures Valid() && View() == Next(old(View()), Act.Break(cell, link))
    {
      var id := WriteCell(cell, AIR);
      var gained := inventory.Add(id, 1);
      Predict(Edit(cell, id, Broke(id, gained)), link);
    }

    /** Spend one unit and place it. False when the cell is blocked or nothing is held. */
    method Place(cell: Cell, id: BlockId, blocked: bool, link: Link) returns (placed: bool)
      requires Valid()
      modifies this, inventory
      ensures Valid() && View() == Next(old(View()), Act.Place(cell, id, blocked, link))
      ensures placed <==> !blocked && old(Count(inventory.counts, id)) > 0
    {
      ConsumeCounts(inventory.View(), id, 1);
      if blocked {
        return false;
      }
      var spent := inventory.Consume(id, 1);
      if !spent {
        return false;
      }
      var prev := WriteCell(cell, id);
      Predict(Edit(cell, prev, Placed(id)), link);
      return true;
    }

    /** Apply one poll's edits and verdicts in order. */
    method ApplyIncoming(events: seq<Incoming>)
      requires Valid()
      modifies this, inventory
      ensures Valid()
      ensures View() == Run(old(View()), seq(|events|, i requires 0 <= i < |events| => ActOf(events[i])))
    {
      ghost var acts := seq(|events|, i requires 0 <= i < |events| => ActOf(events[i]));
      ghost var start := View();
      var i := 0;
      while i < |events|
        invariant 0 <= i <= |events| && Valid()
        invariant View() == Run(start, acts[..i])
      {
        RunOneMore(start, acts, i);
        match events[i] {
          case EditSeen(cell, id) =>
            var _ := WriteCell(cell, id);
          case EditAccepted(req) =>
            pending := pending - {req};
          case EditRejected(req, restore) =>
            if req in pending {
              var e := pending[req];
              pending := pending - {req};
              Rollback(e, restore);
            }
        }
        i := i + 1;
      }
      assert acts[..i] == acts;
    }
  }

  lemma {:induction false} RunOneMore(c: Client, acts: seq<Act>, i: nat)
    requires i < |acts|
    ensures Run(c, acts[..i + 1]) == Next(Run(c, acts[..i]), acts[i])
    decreases i
  {
    if i > 0 {
      assert acts[..i + 1][1..] == acts[1..][..i] && acts[..i][1..] == acts[1..][..i - 1];
      RunOneMore(Next(c, acts[0]), acts[1..], i - 1);
    } else {
      assert acts[..1][1..] == [] && acts[..0] == [];
    }
  }
}
