/** The app as a machine over its screens: one world at a time, and never a slot that is being served. */
module Apps {
  import opened Common

  type SlotId = nat
  type Package = nat

  datatype Save = Save(id: SlotId, readable: bool)

  /** How a server start ends: running, a world file it cannot load, or any other failure. */
  datatype Spawned = Up | Unloadable | Fault

  // ----- the integrated server -----

  /** Slots to try: each readable save in the list's order, then a fresh one. */
  function HostSlots(saves: seq<Save>, spare: SlotId): (slots: seq<SlotId>)
    ensures slots != []
  {
    if saves == [] then [spare]
    else (if saves[0].readable then [saves[0].id] else []) + HostSlots(saves[1..], spare)
  }

  /** The first slot that is not passed over as unloadable. */
  ghost predicate FirstNotSkipped(slots: seq<SlotId>, spawn: SlotId -> Spawned, k: nat) {
    && k < |slots| && spawn(slots[k]) != Unloadable
    && forall j :: 0 <= j < k ==> spawn(slots[j]) == Unloadable
  }

  ghost predicate Served(slots: seq<SlotId>, spawn: SlotId -> Spawned, k: nat, serving: Option<SlotId>) {
    FirstNotSkipped(slots, spawn, k) && spawn(slots[k]) == Up && serving == Some(slots[k])
  }

  /** A readable save, all the readable ones listed before which could not be loaded. */
  ghost predicate TriedNext(saves: seq<Save>, spawn: SlotId -> Spawned, i: nat) {
    && i < |saves| && saves[i].readable
    && forall j :: 0 <= j < i && saves[j].readable ==> spawn(saves[j].id) == Unloadable
  }

  ghost predicate NoneLoads(saves: seq<Save>, spawn: SlotId -> Spawned) {
    forall j :: 0 <= j < |saves| && saves[j].readable ==> spawn(saves[j].id) == Unloadable
  }

  /** Hosting serves the first readable save that loads; a save that fails otherwise ends it; and only when
      no readable save loads is a fresh slot tried. */
  ghost predicate HostsFirst(saves: seq<Save>, spare: SlotId, spawn: SlotId -> Spawned, serving: Option<SlotId>) {
    && (forall i: nat :: TriedNext(saves, spawn, i) && spawn(saves[i].id) == Up ==> serving == Some(saves[i].id))
    && (forall i: nat :: TriedNext(saves, spawn, i) && spawn(saves[i].id) == Fault ==> serving.None?)
    && (NoneLoads(saves, spawn) ==> serving == if spawn(spare) == Up then Some(spare) else None)
  }

  /** The slots tried are the readable saves in the list's order, then the fresh one. */
  lemma {:induction false} TriedAt(saves: seq<Save>, spare: SlotId, spawn: SlotId -> Spawned, i: nat) returns (k: nat)
    requires TriedNext(saves, spawn, i) && spawn(saves[i].id) != Unloadable
    ensures FirstNotSkipped(HostSlots(saves, spare), spawn, k) && HostSlots(saves, spare)[k] == saves[i].id
  {
    if i == 0 {
      k := 0;
    } else {
      assert TriedNext(saves[1..], spawn, i - 1) by {
        forall j | 0 <= j < i - 1 && saves[1..][j].readable ensures spawn(saves[1..][j].id) == Unloadable {
          assert saves[1..][j] == saves[j + 1];
        }
      }
      k := TriedAt(saves[1..], spare, spawn, i - 1);
      OneMoreSlot(saves, spare, spawn, k);
      k := if saves[0].readable then k + 1 else k;
    }
  }

  lemma OneMoreSlot(saves: seq<Save>, spare: SlotId, spawn: SlotId -> Spawned, k: nat)
    requires saves != [] && (saves[0].readable ==> spawn(saves[0].id) == Unloadable)
    requires FirstNotSkipped(HostSlots(saves[1..], spare), spawn, k)
    ensures var at := if saves[0].readable then k + 1 else k;
            FirstNotSkipped(HostSlots(saves, spare), spawn, at)
            && HostSlots(saves, spare)[at] == HostSlots(saves[1..], spare)[k]
  {
  }

  lemma {:induction false} SpareIsLast(saves: seq<Save>, spare: SlotId, spawn: SlotId -> Spawned)
    requires NoneLoads(saves, spawn)
    ensures var slots := HostSlots(saves, spare);
            && slots[|slots| - 1] == spare && forall j :: 0 <= j < |slots| - 1 ==> spawn(slots[j]) == Unloadable
  {
    if saves != [] {
      assert NoneLoads(saves[1..], spawn) by {
        forall j | 0 <= j < |saves[1..]| && saves[1..][j].readable ensures spawn(saves[1..][j].id) == Unloadable {
          assert saves[1..][j] == saves[j + 1];
        }
      }
      SpareIsLast(saves[1..], spare, spawn);
      var slots, rest := HostSlots(saves, spare), HostSlots(saves[1..], spare);
      assert slots == (if saves[0].readable then [saves[0].id] else []) + rest;
    }
  }

  /** What trying the slots in order comes to. */
  lemma ServedIsFirst(saves: seq<Save>, spare: SlotId, spawn: SlotId -> Spawned, serving: Option<SlotId>)
    requires serving.Some? ==> exists k: nat :: Served(HostSlots(saves, spare), spawn, k, serving)
    requires serving.None? ==>
      forall k: nat :: FirstNotSkipped(HostSlots(saves, spare), spawn, k) ==> spawn(HostSlots(saves, spare)[k]) == Fault
    ensures HostsFirst(saves, spare, spawn, serving)
  {
    var slots := HostSlots(saves, spare);
    forall i: nat | TriedNext(saves, spawn, i) && spawn(saves[i].id) != Unloadable
      ensures serving == if spawn(saves[i].id) == Up then Some(saves[i].id) else None
    {
      var k := TriedAt(saves, spare, spawn, i);
      if serving.Some? {
        var m: nat :| Served(slots, spawn, m, serving);
        assert m == k;
      }
    }
    if NoneLoads(saves, spawn) {
      SpareIsLast(saves, spare, spawn);
      var last := |slots| - 1;
      if serving.Some? {
        var m: nat :| Served(slots, spawn, m, serving);
        assert m == last;
      } else if spawn(spare) != Unloadable {
        assert FirstNotSkipped(slots, spawn, last);
      }
    }
  }

  /** Saves are listed newest first. */
  ghost predicate NewestReadable(saves: seq<Save>, i: nat) {
    i < |saves| && saves[i].readable && forall j :: 0 <= j < i ==> !saves[j].readable
  }

  class Host {
    var serving: Option<SlotId>

    constructor ()
      ensures serving.None?
    {
      serving := None;
    }

    predicate Running()
      reads this
    {
      serving.Some?
    }

    predicate Serves(id: SlotId)
      reads this
    {
      serving == Some(id)
    }

    /** Save and stop; true when something ran. */
    method Stop() returns (stopped: bool)
      modifies this
      ensures serving.None? && stopped == old(Running())
    {
      stopped := serving.Some?;
      serving := None;
    }

    /** Stop any server, then serve the first slot that loads. Only an unloadable world is passed over. */
    method Start(saves: seq<Save>, spare: SlotId, spawn: SlotId -> Spawned) returns (ok: bool)
      modifies this
      ensures ok <==> serving.Some?
      ensures ok ==> exists k: nat :: Served(HostSlots(saves, spare), spawn, k, serving)
      ensures !ok ==> forall k: nat ::
        FirstNotSkipped(HostSlots(saves, spare), spawn, k) ==> spawn(HostSlots(saves, spare)[k]) == Fault
      ensures HostsFirst(saves, spare, spawn, serving)
    {
      var stopped := Stop();
      var slots := HostSlots(saves, spare);
      var k := 0;
      while k < |slots|
        invariant 0 <= k <= |slots| && serving.None?
        invariant forall j :: 0 <= j < k ==> spawn(slots[j]) == Unloadable
      {
        match spawn(slots[k]) {
          case Up =>
            serving := Some(slots[k]);
            assert Served(slots, spawn, k, serving);
            ServedIsFirst(saves, spare, spawn, serving);
            return true;
          case Unloadable =>
          case Fault =>
            assert FirstNotSkipped(slots, spawn, k);
            ServedIsFirst(saves, spare, spawn, serving);
            return false;
        }
        k := k + 1;
      }
      ServedIsFirst(saves, spare, spawn, serving);
      return false;
    }
  }

  // ----- the app -----

  /** One join; `attempts` counts the connections it has begun. */
  datatype ConnectJob = ConnectJob(hosted: bool, retried: bool, attempts: nat)

  datatype Loading = NewWorld | LoadSave(id: SlotId) | JoinWorld(hosted: bool)

  datatype Screen = Menus | Connecting(job: ConnectJob) | Playing(multiplayer: bool)

  /** What became of a connection attempt; a refusal may name modules. */
  datatype Poll = Pending | Connected | Failed(denied: set<Package>)

  datatype Request =
    | StartNew
    | Load(id: SlotId)
    | Delete(id: SlotId)
    | HostGame
    | Join
    | Quit
    | Other

  datatype Signal = Continue | Escape(pauseScreen: bool) | ExitToMenu | PauseLeave | PauseQuit

  /** All that a frame reads from outside: input, jobs, the network and the disk. */
  datatype Input = Input(
    cancel: bool, request: Option<Request>, poll: Poll, landed: bool, newSlot: SlotId, loads: bool, signal: Signal,
    saves: seq<Save>, spare: SlotId, spawn: SlotId -> Spawned)

  /** A slot touched, and what was being served just then. */
  datatype Touch = Touch(slot: SlotId, served: Option<SlotId>)

  /** The signals that end a world. */
  predicate Leaves(s: Signal) {
    s.ExitToMenu? || s.PauseLeave? || (s.Escape? && !s.pauseScreen)
  }

  predicate RetryAfter(denied: set<Package>, retried: bool) {
    denied != {} && !retried
  }

  class App {
    const bench: bool
    const hasRoot: bool
    const host: Host
    const pinned: set<Package>
    var saves: seq<Save>
    var active: Option<SlotId>
    var screen: Screen
    var loading: Option<Loading>
    /** Whether opening a world stopped the server: the player is told on entry. */
    var entryNotice: bool
    var enterPending: bool
    var quit: bool
    var suspended: set<Package>
    ghost var entered: seq<Touch>
    ghost var deleted: seq<Touch>

    ghost predicate Valid()
      reads this, host
    {
      Exclusive() && (suspended != pinned ==> HeldForSession())
    }

    /** A slot is opened, built or deleted only while no server serves it. */
    ghost predicate Exclusive()
      reads this, host
    {
      && (active.Some? ==> !host.Running())
      && (active.Some? <==> screen == Playing(false))
      && (loading.Some? ==> screen.Menus?)
      && (loading.Some? && !loading.value.JoinWorld? ==> !host.Running())
      && (screen.Connecting? ==> screen.job.attempts == if screen.job.retried then 2 else 1)
      && (enterPending ==> screen.Menus? && loading.None?)
      && NeverServed(entered) && NeverServed(deleted)
      && (forall i :: 0 <= i < |entered| ==> entered[i].served.None?)
    }

    /** Packages are held off only between a module refusal and the end of that session. */
    ghost predicate HeldForSession()
      reads this
    {
      || (screen.Connecting? && screen.job.retried)
      || (loading.Some? && loading.value.JoinWorld?)
      || screen == Playing(true)
    }

    ghost predicate NeverServed(touched: seq<Touch>) {
      forall i :: 0 <= i < |touched| ==> touched[i].served != Some(touched[i].slot)
    }

    constructor (bench: bool, hasRoot: bool, pinned: set<Package>, saves: seq<Save>)
      ensures Valid() && fresh(host) && entered == [] && deleted == []
    {
      this.bench, this.hasRoot, this.pinned, this.saves := bench, hasRoot, pinned, saves;
      active, screen, loading, entryNotice, quit := None, Menus, None, false, false;
      suspended, entered, deleted := pinned, [], [];
      enterPending := !hasRoot && !bench;
      host := new Host();
    }

    // ----- the way in -----

    method EnterGame(multiplayer: bool)
      modifies this`screen, this`entryNotice
      ensures screen == Playing(multiplayer) && !entryNotice
    {
      entryNotice := false;
      screen := Playing(multiplayer);
    }

    /** A menu without a root screen to show quits instead. */
    method ReturnToMenu()
      requires Exclusive() && !enterPending
      modifies this`suspended, this`active, this`screen, this`quit
      ensures Valid() && active.None? && screen.Menus? && suspended == pinned
      ensures quit == (old(quit) || !hasRoot)
    {
      suspended := pinned;
      active := None;
      screen := Menus;
      if !hasRoot {
        quit := true;
      }
    }

    method StartNewWorld(input: Input)
      requires Valid() && screen.Menus? && loading.None? && !enterPending
      modifies this, host
      ensures Valid() && saves == old(saves)
      ensures !host.Running()
      ensures if bench then screen == Playing(false) && active == Some(input.newSlot) && loading.None?
              else loading == Some(NewWorld) && screen.Menus? && entryNotice == old(host.Running())
      ensures !enterPending && deleted == old(deleted) && quit == old(quit)
      decreases 2
    {
      entryNotice := host.Stop();
      BeginLoading(NewWorld, input);
    }

    method LoadWorld(id: SlotId, input: Input)
      requires Valid() && screen.Menus? && loading.None? && !enterPending
      modifies this, host
      ensures Valid() && !host.Running() && deleted == old(deleted) && !enterPending
      ensures !bench ==> loading == Some(LoadSave(id)) && screen.Menus? && entryNotice == old(host.Running())
      ensures bench && input.loads ==> screen == Playing(false) && active == Some(id)
      ensures bench && !input.loads && !hasRoot ==> screen == Playing(false) && active == Some(input.newSlot)
    {
      entryNotice := host.Stop();
      BeginLoading(LoadSave(id), input);
    }

    /** Benchmarks wait for the world here. */
    method BeginLoading(l: Loading, input: Input)
      requires Exclusive() && screen.Menus? && loading.None? && !enterPending
      requires !l.JoinWorld? ==> !host.Running() && suspended == pinned
      modifies this, host
      ensures Valid() && saves == old(saves) && deleted == old(deleted) && !enterPending
      ensures !l.JoinWorld? ==> !host.Running()
      ensures l.JoinWorld? ==> host.serving == old(host.serving) && suspended == old(suspended)
      ensures bench && l.JoinWorld? ==> screen == Playing(true)
      ensures !bench ==> loading == Some(l) && screen.Menus? && quit == old(quit) && entryNotice == old(entryNotice)
      ensures bench && l.NewWorld? ==>
        screen == Playing(false) && active == Some(input.newSlot) && loading.None? && quit == old(quit)
      ensures bench && l.LoadSave? && input.loads ==> screen == Playing(false) && active == Some(l.id)
      ensures bench && l.LoadSave? && !input.loads && !hasRoot ==>
        screen == Playing(false) && active == Some(input.newSlot)
      decreases if l.LoadSave? then 4 else 1
    {
      if bench {
        Arrive(l, input);
      } else {
        loading := Some(l);
      }
    }

    /** The built world swapped in; a save that fails to load goes back, or on to a new world. */
    method Arrive(l: Loading, input: Input)
      requires Exclusive() && screen.Menus? && loading.None? && !enterPending
      requires !l.JoinWorld? ==> !host.Running() && suspended == pinned
      modifies this, host
      ensures Valid() && saves == old(saves) && deleted == old(deleted) && !enterPending
      ensures !l.JoinWorld? ==> !host.Running()
      ensures l.JoinWorld? ==> screen == Playing(true) && active.None? && host.serving == old(host.serving)
      ensures l.JoinWorld? ==> suspended == old(suspended)
      ensures l.NewWorld? ==>
        screen == Playing(false) && active == Some(input.newSlot) && loading.None? && quit == old(quit)
      ensures l.LoadSave? && input.loads ==> screen == Playing(false) && active == Some(l.id)
      ensures l.LoadSave? && !input.loads && hasRoot ==> screen.Menus? && loading.None? && quit == old(quit)
      ensures l.LoadSave? && !input.loads && !hasRoot ==>
        if bench then screen == Playing(false) && active == Some(input.newSlot)
        else loading == Some(NewWorld) && screen.Menus? && quit == old(quit)
      decreases if l.LoadSave? then 3 else 0
    {
      match l {
        case NewWorld =>
          active := Some(input.newSlot);
          entered := entered + [Touch(input.newSlot, host.serving)];
          EnterGame(false);
        case LoadSave(id) =>
          if input.loads {
            active := Some(id);
            entered := entered + [Touch(id, host.serving)];
            EnterGame(false);
          } else {
            entryNotice := false;
            if hasRoot {
              ReturnToMenu();
            } else {
              StartNewWorld(input);
            }
          }
        case JoinWorld(_) =>
          active := None;
          EnterGame(true);
      }
    }

    // ----- the screens -----

    method HandleRequest(request: Request, input: Input)
      requires Valid() && screen.Menus? && loading.None? && !enterPending
      modifies this, host
      ensures Valid()
      ensures !enterPending && (request.StartNew? || request.Load? ==> !host.Running())
      ensures request.StartNew? && !bench ==> loading == Some(NewWorld)
      ensures request.Load? && !bench ==> loading == Some(LoadSave(request.id))
      ensures request.Quit? ==> quit && host.serving == old(host.serving) && screen.Menus?
      ensures request.Delete? ==>
        saves == input.saves && !host.Serves(request.id)
        && deleted == old(deleted) + [Touch(request.id, host.serving)]
      ensures request.Delete? || request.Other? ==> screen == old(screen) && loading.None? && quit == old(quit)
      ensures request.Join? || request.Other? ==> host.serving == old(host.serving) && quit == old(quit)
      ensures request.Delete? ==>
        host.serving == if old(host.serving) == Some(request.id) then None else old(host.serving)
      ensures request.Join? ==> screen == Connecting(ConnectJob(false, false, 1))
      ensures request.HostGame? ==> (screen == Connecting(ConnectJob(true, false, 1)) <==> host.Running())
      ensures request.HostGame? ==> HostsFirst(old(saves), input.spare, input.spawn, host.serving)
    {
      match request {
        case StartNew => StartNewWorld(input);
        case Load(id) => LoadWorld(id, input);
        case Delete(id) =>
          if host.Serves(id) {
            var stopped := host.Stop();
          }
          deleted := deleted + [Touch(id, host.serving)];
          saves := input.saves;
        case HostGame =>
          var ok := host.Start(saves, input.spare, input.spawn);
          if ok {
            screen := Connecting(ConnectJob(true, false, 1));
          } else {
            ReturnToMenu();
          }
        case Join => screen := Connecting(ConnectJob(false, false, 1));
        case Quit => quit := true;
        case Other =>
      }
    }

    /** Esc drops the job. A cancelled join also stops a host this app started. */
    method UpdateLoading(input: Input)
      requires Valid() && loading.Some? && !enterPending
      modifies this, host
      ensures Valid() && !enterPending
      ensures !input.cancel && !input.landed ==> loading == old(loading) && screen.Menus?
      ensures !input.cancel && input.landed && old(loading) == Some(NewWorld) ==>
        screen == Playing(false) && active == Some(input.newSlot)
      ensures !input.cancel && input.landed && old(loading).value.LoadSave? && input.loads ==>
        screen == Playing(false) && active == Some(old(loading).value.id)
      ensures !input.cancel && input.landed && old(loading).value.JoinWorld? ==>
        screen == Playing(true) && host.serving == old(host.serving)
      ensures !input.cancel && input.landed && old(loading).value.LoadSave? && !input.loads ==>
        if hasRoot then screen.Menus? && loading.None?
        else if bench then screen == Playing(false) && active == Some(input.newSlot)
        else loading == Some(NewWorld)
      ensures input.cancel ==> loading.None? && screen.Menus? && active.None? && quit == (old(quit) || !hasRoot)
      ensures input.cancel && !old(loading).value.JoinWorld? ==> !entryNotice
      ensures input.cancel && old(loading) == Some(JoinWorld(true)) ==> !host.Running()
      ensures input.cancel && old(loading) == Some(JoinWorld(false)) ==> host.serving == old(host.serving)
    {
      if input.cancel {
        var dropped := loading.value;
        loading := None;
        match dropped {
          case JoinWorld(hosted) =>
            if hosted {
              var stopped := host.Stop();
            }
            ReturnToMenu();
          case _ =>
            var notice := entryNotice;
            entryNotice := false;
            if notice || !hasRoot {
              ReturnToMenu();
            }
        }
        return;
      }
      if input.landed {
        var l := loading.value;
        loading := None;
        Arrive(l, input);
      }
    }

    /** At most one retry, and only for a refusal that names modules. */
    method UpdateConnecting(input: Input)
      requires Valid() && screen.Connecting? && !enterPending
      modifies this, host
      ensures Valid() && !enterPending
      ensures screen.Connecting? ==>
        screen.job.hosted == old(screen.job).hosted && screen.job.attempts >= old(screen.job).attempts
      ensures screen.Connecting? && screen.job.attempts > old(screen.job).attempts ==>
        input.poll.Failed? && input.poll.denied != {} && suspended == pinned + input.poll.denied
      ensures input.cancel || (input.poll.Failed? && old(screen.job).retried) ==> screen.Menus? && suspended == pinned
      ensures input.cancel && old(screen.job).hosted ==> !host.Running()
      ensures !input.cancel ==> host.serving == old(host.serving)
      ensures !input.cancel && input.poll.Connected? ==>
        if bench then screen == Playing(true) else loading == Some(JoinWorld(old(screen.job).hosted))
      ensures !input.cancel && input.poll.Pending? ==> screen == old(screen) && loading == old(loading)
      ensures !input.cancel && input.poll.Failed? ==>
        if input.poll.denied != {} && !old(screen.job).retried
        then screen == Connecting(ConnectJob(old(screen.job).hosted, true, 2))
          && suspended == pinned + input.poll.denied
        else screen.Menus? && loading.None? && suspended == pinned
    {
      var job := screen.job;
      if input.cancel {
        if job.hosted {
          var stopped := host.Stop();
        }
        ReturnToMenu();
        return;
      }
      match input.poll {
        case Pending =>
        case Connected =>
          screen := Menus;
          BeginLoading(JoinWorld(job.hosted), input);
        case Failed(denied) =>
          if RetryAfter(denied, job.retried) {
            suspended := pinned + denied;
            screen := Connecting(job.(retried := true, attempts := job.attempts + 1));
          } else {
            if job.retried {
              suspended := pinned;
            }
            screen := Menus;
            ReturnToMenu();
          }
      }
    }

    method UpdatePlaying(input: Input)
      requires Valid() && screen.Playing? && !enterPending
      modifies this`suspended, this`active, this`screen, this`quit
      ensures Valid()
      ensures if Leaves(input.signal) then screen.Menus? && active.None?
              else screen == old(screen) && active == old(active)
      ensures quit == (old(quit) || input.signal == PauseQuit || (screen.Menus? && !hasRoot))
    {
      match input.signal {
        case PauseLeave => ReturnToMenu();
        case PauseQuit => quit := true;
        case Continue =>
        case Escape(pauseScreen) =>
          if !pauseScreen {
            ReturnToMenu();
          }
        case ExitToMenu => ReturnToMenu();
      }
    }

    /** A build without a root screen enters its newest readable save, or a new world. */
    method EnterDefault(input: Input)
      requires Valid() && screen.Menus? && loading.None? && !enterPending
      modifies this, host
      ensures Valid() && !host.Running() && !enterPending
      ensures !bench && (exists i :: 0 <= i < |old(saves)| && old(saves)[i].readable) ==>
        exists i: nat :: NewestReadable(old(saves), i) && loading == Some(LoadSave(old(saves)[i].id))
      ensures !bench && (forall i :: 0 <= i < |old(saves)| ==> !old(saves)[i].readable) ==> loading == Some(NewWorld)
    {
      var i := 0;
      while i < |saves| && !saves[i].readable
        invariant 0 <= i <= |saves|
        invariant forall j :: 0 <= j < i ==> !saves[j].readable
      {
        i := i + 1;
      }
      if i < |saves| {
        assert NewestReadable(saves, i);
        LoadWorld(saves[i].id, input);
      } else {
        StartNewWorld(input);
      }
    }

    /** One frame: whichever screen is up. */
    method Frame(input: Input)
      requires Valid()
      modifies this, host
      ensures Valid()
      ensures old(enterPending) ==> !enterPending
      ensures old(screen.Playing?) ==>
        (screen.Menus? <==> Leaves(input.signal))
        && quit == (old(quit) || input.signal == PauseQuit || (screen.Menus? && !hasRoot))
      ensures old(screen.Connecting?) && input.cancel ==> screen.Menus? && suspended == pinned
      ensures old(screen.Connecting?) && !input.cancel && input.poll.Connected? ==>
        if bench then screen == Playing(true) else loading == Some(JoinWorld(old(screen).job.hosted))
      ensures old(screen.Connecting?) && !input.cancel && input.poll.Failed? ==>
        if input.poll.denied != {} && !old(screen).job.retried
        then screen == Connecting(ConnectJob(old(screen).job.hosted, true, 2))
        else screen.Menus? && loading.None? && suspended == pinned
      ensures old(screen.Menus? && loading.Some?) ==>
        if input.cancel then screen.Menus? && loading.None?
        else if !input.landed then screen.Menus? && loading == old(loading)
        else if old(loading).value.LoadSave? && !input.loads then active != Some(old(loading).value.id) || !hasRoot
        else screen == Playing(old(loading).value.JoinWorld?)
      ensures old(screen.Menus? && loading.None? && !enterPending) && input.request.Some? ==>
        match input.request.value
        case StartNew => !host.Running() && (!bench ==> loading == Some(NewWorld))
        case Load(id) => !host.Running() && (!bench ==> loading == Some(LoadSave(id)))
        case Delete(id) => !host.Serves(id) && deleted == old(deleted) + [Touch(id, host.serving)]
        case HostGame => HostsFirst(old(saves), input.spare, input.spawn, host.serving)
        case Join => screen == Connecting(ConnectJob(false, false, 1))
        case Quit => quit
        case Other => screen == old(screen) && host.serving == old(host.serving) && quit == old(quit)
    {
      if enterPending {
        enterPending := false;
        EnterDefault(input);
      }
      match screen {
        case Menus =>
          if loading.Some? {
            UpdateLoading(input);
          } else if input.request.Some? {
            HandleRequest(input.request.value, input);
          }
        case Connecting(_) => UpdateConnecting(input);
        case Playing(_) => UpdatePlaying(input);
      }
    }

    /** Over any run, which only quitting cuts short: no slot is open, being built or deleted while it is served. */
    method Run(inputs: seq<Input>) returns (frames: nat)
      requires Valid()
      modifies this, host
      ensures Valid()
      ensures frames <= |inputs| && (frames < |inputs| ==> quit)
      ensures active.Some? || (loading.Some? && !loading.value.JoinWorld?) ==> host.serving.None?
      ensures forall i :: 0 <= i < |entered| ==> entered[i].served.None?
      ensures forall i :: 0 <= i < |deleted| ==> deleted[i].served != Some(deleted[i].slot)
      ensures screen.Connecting? ==> screen.job.attempts <= 2
    {
      frames := 0;
      while frames < |inputs| && !quit
        invariant frames <= |inputs| && Valid()
      {
        Frame(inputs[frames]);
        frames := frames + 1;
      }
    }
  }
}
