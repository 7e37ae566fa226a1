/**
 Cross-instance port exclusivity over whole runs.

 A state has the reservation table and sidecar files of L4Ports, the containers
 that publish L4 ports, and the starts that were granted a slot and have not
 bound it yet, each with the deadline its reservation was given.
 */
module PortRuns {
  import opened Values
  import opened L4Ports

  datatype Publisher = Publisher(owner: Instance, slot: Slot)
  datatype Config = Config(lo: Port, hi: Port, ttl: nat)

  datatype State = State(now: int, table: Table, sidecars: Sidecars,
                         running: set<Publisher>, due: map<Publisher, int>)

  datatype Action =
    | Tick(d: nat)
    | Allocate(id: Instance, reqs: seq<Request>, tunnel: bool, saves: bool)  // whether the sticky file can be written
    | Bind(p: Publisher)
    | Stop(p: Publisher)
    | Restart  // the agent restarts: its table is in process, and the starts in flight die with it

  predicate InRange(cfg: Config, port: Port) {
    cfg.lo <= port <= cfg.hi
  }

  /** What published_l4_ports returns to `me`. */
  ghost function Visible(cfg: Config, s: State, me: Instance): (r: set<Slot>)
    ensures forall slot :: slot in r <==>
      exists p :: p in s.running && p.owner != me && InRange(cfg, p.slot.port) && p.slot == slot
  {
    set p | p in s.running && p.owner != me && InRange(cfg, p.slot.port) :: p.slot
  }

  /** Who a container counts for; "" outside every compose project. */
  function OwnerOf(c: Container): Instance {
    if c.project.Some? then c.project.value else ""
  }

  ghost predicate Publishes(c: Container, id: Instance, slot: Slot) {
    && OwnerOf(c) == id
    && exists j :: 0 <= j < |c.specs|
                   && c.specs[j].publicPort == Some(slot.port) && Protocol(c.specs[j].kind) == slot.proto
  }

  /** Inside the range the daemon lists exactly these publishers; what it shows outside, such as the ports of the
      proxies, is of no concern. */
  ghost predicate IsListing(cfg: Config, containers: seq<Container>, running: set<Publisher>) {
    forall id, slot: Slot :: InRange(cfg, slot.port) ==>
      (Publisher(id, slot) in running <==> exists c :: c in containers && Publishes(c, id, slot))
  }

  /** The enumeration of Allocator.Allocate sees exactly Visible. */
  lemma ListingShowsVisible(cfg: Config, s: State, containers: seq<Container>, me: Instance, slot: Slot)
    requires IsListing(cfg, containers, s.running) && me != ""
    ensures IsPublished(containers, me, cfg.lo, cfg.hi, slot) <==> slot in Visible(cfg, s, me)
  {
    if IsPublished(containers, me, cfg.lo, cfg.hi, slot) {
      var c :| c in containers && PublishedIn(c, me, cfg.lo, cfg.hi, slot, |c.specs|);
      assert Publishes(c, OwnerOf(c), slot);
      assert Publisher(OwnerOf(c), slot) in s.running;
    }
    if slot in Visible(cfg, s, me) {
      var p :| p in s.running && p.owner != me && p.slot == slot;
      assert Publisher(p.owner, slot) in s.running;
      var c :| c in containers && Publishes(c, p.owner, slot);
      assert PublishedIn(c, me, cfg.lo, cfg.hi, slot, |c.specs|);
    }
  }

  ghost function CallOf(cfg: Config, s: State, a: Action): Call
    requires a.Allocate?
  {
    CallFor(s.table, s.sidecars, a.id, a.reqs, a.tunnel, cfg.lo, cfg.hi, Visible(cfg, s, a.id), s.now)
  }

  ghost function GrantedBy(cfg: Config, s: State, a: Action): set<Slot>
    requires a.Allocate?
  {
    Granted(a.reqs, Pick(CallOf(cfg, s, a)).ports)
  }

  ghost function AllocateStep(cfg: Config, s: State, a: Action): State
    requires a.Allocate?
  {
    if a.reqs == [] then s
    else
      var (table, sidecars, answer) := Allocated(s.table, s.sidecars, a.id, a.reqs, a.tunnel,
                                                 cfg.lo, cfg.hi, Visible(cfg, s, a.id), s.now, cfg.ttl, a.saves);
      var due := if answer.Ok?
                 then s.due + map slot | slot in GrantedBy(cfg, s, a) :: Publisher(a.id, slot) := s.now + cfg.ttl
                 else s.due;
      s.(table := table, sidecars := sidecars, due := due)
  }

  ghost function Step(cfg: Config, s: State, a: Action): State {
    match a
    case Tick(d) => s.(now := s.now + d)
    case Allocate(_, _, _, _) => AllocateStep(cfg, s, a)
    case Bind(p) => s.(running := s.running + {p}, due := s.due - {p})
    case Stop(p) => s.(running := s.running - {p})
    case Restart => s.(table := map[], due := map[])
  }

  // ---- The property --------------------------------------------------------------

  ghost predicate Holds(s: State, id: Instance, slot: Slot) {
    || Publisher(id, slot) in s.running
    || HasReservation(s, id, slot)
  }

  ghost predicate HasReservation(s: State, id: Instance, slot: Slot) {
    slot in s.table && s.now < s.table[slot].expiry && s.table[slot].owner == id
  }

  ghost predicate Exclusive(s: State) {
    forall a, b, slot :: Holds(s, a, slot) && Holds(s, b, slot) ==> a == b
  }

  /** Persisted ports lie in the current range. */
  ghost predicate MemoryInRange(cfg: Config, s: State) {
    forall id, name :: id in s.sidecars && name in s.sidecars[id] ==> InRange(cfg, s.sidecars[id][name])
  }

  ghost predicate Init(cfg: Config, s: State) {
    && s.table == map[] && s.due == map[]
    && (forall p :: p in s.running ==> InRange(cfg, p.slot.port))
    && (forall p, q :: p in s.running && q in s.running && p.slot == q.slot ==> p == q)
    && MemoryInRange(cfg, s)
  }

  /** What a run is assumed to respect. */
  datatype Discipline =
    | ByReservation            // a container binds only while its reservation is still in the table
    | ByDeadline(stopFirst: bool)  // it binds within the TTL of its grant; `stopFirst`: starts come after stops

  ghost predicate Respects(d: Discipline, s: State, a: Action) {
    match d
    case ByReservation =>
      a.Bind? ==> HasReservation(s, a.p.owner, a.p.slot)
    case ByDeadline(stopFirst) =>
      && (a.Bind? ==> a.p in s.due && s.now < s.due[a.p])
      && (stopFirst && a.Allocate? ==> forall p :: p in s.running ==> p.owner != a.id)
  }

  ghost function Exec(cfg: Config, s: State, acts: seq<Action>): State
    decreases acts
  {
    if acts == [] then s else Exec(cfg, Step(cfg, s, acts[0]), acts[1..])
  }

  ghost predicate IsRun(cfg: Config, d: Discipline, s: State, acts: seq<Action>)
    decreases acts
  {
    acts == [] || (Respects(d, s, acts[0]) && IsRun(cfg, d, Step(cfg, s, acts[0]), acts[1..]))
  }

  ghost predicate Inv(cfg: Config, s: State) {
    && Exclusive(s)
    && MemoryInRange(cfg, s)
    && (forall p :: p in s.running ==> InRange(cfg, p.slot.port))
    && (forall slot :: slot in s.table ==> InRange(cfg, slot.port))
  }

  // ---- One allocation ------------------------------------------------------------

  /** The slots a call grants are in range, and nobody else holds them. */
  lemma GrantedAreFree(cfg: Config, s: State, a: Action, slot: Slot)
    requires Inv(cfg, s) && a.Allocate? && slot in GrantedBy(cfg, s, a)
    ensures InRange(cfg, slot.port)
    ensures forall id :: Holds(s, id, slot) ==> id == a.id
  {
    hide Pick, IsLowestFree;
    var c := CallOf(cfg, s, a);
    var i :| 0 <= i < |Pick(c).ports| && slot == Slot(a.reqs[i].proto, Pick(c).ports[i]);
    PicksAreFresh(c, i);
    PicksInRange(c, i);
    assert forall p :: p in s.running && p.owner != a.id && p.slot == slot ==> slot in Visible(cfg, s, a.id);
    forall id | Holds(s, id, slot) ensures id == a.id {
      assert Publisher(id, slot).slot == slot;
    }
  }

  /** The table after an allocation, slot by slot. */
  lemma TableAfter(cfg: Config, s: State, a: Action, slot: Slot)
    requires a.Allocate? && a.reqs != []
    ensures var t', g := AllocateStep(cfg, s, a).table, GrantedBy(cfg, s, a);
      && (slot in g ==> slot in t' && t'[slot] == Reservation(s.now + cfg.ttl, a.id))
      && (slot !in g ==>
           && (slot in t' <==> slot in s.table && s.now < s.table[slot].expiry && slot !in Visible(cfg, s, a.id))
           && (slot in t' ==> t'[slot] == s.table[slot]))
  {
    hide Pick, Choose;
    var occ := Visible(cfg, s, a.id);
    MarkAllMarks(Pruned(s.table, occ, s.now), a.id, a.reqs, Pick(CallOf(cfg, s, a)).ports, s.now + cfg.ttl);
  }

  /** A reservation survives another instance's allocation exactly when it is unexpired and its
      port is not visible in the daemon: an owner whose old container still runs loses it. */
  lemma ReservationSurvivesIff(cfg: Config, s: State, a: Action, owner: Instance, slot: Slot)
    requires Inv(cfg, s) && a.Allocate? && a.reqs != [] && a.id != owner && HasReservation(s, owner, slot)
    ensures HasReservation(Step(cfg, s, a), owner, slot) <==> Publisher(owner, slot) !in s.running
  {
    hide Pick, Choose, MarkAll;
    TableAfter(cfg, s, a, slot);
    assert Holds(s, owner, slot);
    if slot in GrantedBy(cfg, s, a) {
      GrantedAreFree(cfg, s, a, slot);
    }
    if slot in Visible(cfg, s, a.id) {
      var p :| p in s.running && p.slot == slot;
      assert p == Publisher(p.owner, slot);
      assert Holds(s, p.owner, slot);
    } else {
      assert forall p :: p in s.running && p.slot == slot && InRange(cfg, slot.port) ==> p.owner == a.id;
      assert Publisher(owner, slot).slot == slot;
    }
  }

  /** The sticky files after an allocation: a failed one leaves them all as they were, whatever it failed of, and a
      successful one touches only its own instance's, which then has the names asked for and no other, each with the
      port its last request was given. */
  lemma AllocateRemembers(cfg: Config, s: State, a: Action)
    requires a.Allocate?
    ensures var s', picks := Step(cfg, s, a), Pick(CallOf(cfg, s, a));
      && s'.sidecars - {a.id} == s.sidecars - {a.id}
      && (picks.error.Some? || !a.saves || a.reqs == [] ==> s'.sidecars == s.sidecars && s'.due == s.due)
      && (picks.error.None? && a.saves && a.reqs != [] ==>
            a.id in s'.sidecars && Remembers(s'.sidecars[a.id], a.reqs, picks.ports))
  {
    hide PickFirst, MarkAll, NewSticky, Granted, Remembers;
    NewStickyIs(a.reqs, Pick(CallOf(cfg, s, a)).ports);
  }

  lemma AllocateKeepsMemory(cfg: Config, s: State, a: Action)
    requires Inv(cfg, s) && a.Allocate?
    ensures MemoryInRange(cfg, AllocateStep(cfg, s, a))
  {
    hide Choose, LowestFree, PickFirst, MarkAll;
    if a.reqs != [] {
      var c := CallOf(cfg, s, a);
      var ports := Pick(c).ports;
      forall i | 0 <= i < |ports| ensures InRange(cfg, ports[i]) {
        PicksInRange(c, i);
      }
      NewStickyFrom(cfg, a.reqs, ports);
    }
  }

  lemma {:induction false} NewStickyFrom(cfg: Config, reqs: seq<Request>, ports: seq<Port>)
    requires |ports| <= |reqs|
    requires forall i :: 0 <= i < |ports| ==> InRange(cfg, ports[i])
    ensures forall name :: name in NewSticky(reqs, ports) ==> InRange(cfg, NewSticky(reqs, ports)[name])
  {
    if ports != [] {
      NewStickyFrom(cfg, reqs, ports[..|ports| - 1]);
    }
  }

  /** After an allocation, whoever holds a slot held it before or was granted it. */
  lemma HoldsAfterAllocate(cfg: Config, s: State, a: Action, id: Instance, slot: Slot)
    requires Inv(cfg, s) && a.Allocate? && Holds(Step(cfg, s, a), id, slot)
    ensures Holds(s, id, slot) || (id == a.id && slot in GrantedBy(cfg, s, a))
  {
    hide Pick, MarkAll;
    if a.reqs != [] {
      TableAfter(cfg, s, a, slot);
    }
  }

  lemma AllocateKeepsInv(cfg: Config, s: State, a: Action)
    requires Inv(cfg, s) && a.Allocate?
    ensures Inv(cfg, Step(cfg, s, a))
  {
    hide Pick, MarkAll, Granted;
    var s' := Step(cfg, s, a);
    AllocateKeepsMemory(cfg, s, a);
    forall x, y, slot | Holds(s', x, slot) && Holds(s', y, slot) ensures x == y {
      HoldsAfterAllocate(cfg, s, a, x, slot);
      HoldsAfterAllocate(cfg, s, a, y, slot);
      if slot in GrantedBy(cfg, s, a) {
        GrantedAreFree(cfg, s, a, slot);
      }
    }
    forall slot | slot in s'.table ensures InRange(cfg, slot.port) {
      if a.reqs != [] {
        TableAfter(cfg, s, a, slot);
      }
      if slot in GrantedBy(cfg, s, a) {
        GrantedAreFree(cfg, s, a, slot);
      }
    }
  }

  // ---- Runs that bind while the reservation is in the table ------------------------

  lemma StepKeepsInv(cfg: Config, s: State, a: Action)
    requires Inv(cfg, s) && Respects(ByReservation, s, a)
    ensures Inv(cfg, Step(cfg, s, a))
  {
    var s' := Step(cfg, s, a);
    if a.Allocate? {
      AllocateKeepsInv(cfg, s, a);
    } else {
      forall x, y, slot | Holds(s', x, slot) && Holds(s', y, slot) ensures x == y {
        assert Holds(s, x, slot) && Holds(s, y, slot);
      }
    }
  }

  /** No two instances ever hold one (protocol, port), in any run whose containers bind while
      their reservation is still in the table. */
  lemma {:induction false} ExclusiveWhileReserved(cfg: Config, s: State, acts: seq<Action>)
    requires Inv(cfg, s) && IsRun(cfg, ByReservation, s, acts)
    ensures Inv(cfg, Exec(cfg, s, acts)) && Exclusive(Exec(cfg, s, acts))
    decreases acts
  {
    hide Step, Inv, Exclusive;
    if acts != [] {
      StepKeepsInv(cfg, s, acts[0]);
      ExclusiveWhileReserved(cfg, Step(cfg, s, acts[0]), acts[1..]);
    } else {
      InvIsExclusive(cfg, s);
    }
  }

  lemma InvIsExclusive(cfg: Config, s: State)
    requires Inv(cfg, s)
    ensures Exclusive(s)
  {
  }

  lemma InitIsInv(cfg: Config, s: State)
    requires Init(cfg, s)
    ensures Inv(cfg, s)
  {
    forall a, b, slot | Holds(s, a, slot) && Holds(s, b, slot) ensures a == b {
      assert Publisher(a, slot) == Publisher(b, slot);
    }
  }

  // ---- Runs that bind within the TTL ------------------------------------------------

  /** Every start that can still bind in time has its reservation, and no container running yet. */
  ghost predicate DueInv(cfg: Config, s: State) {
    && (forall p :: p in s.due ==> p !in s.running && s.due[p] <= s.now + cfg.ttl)
    && (forall p :: p in s.due && s.now < s.due[p] ==>
          p.slot in s.table && s.table[p.slot].owner == p.owner && s.due[p] <= s.table[p.slot].expiry)
  }

  lemma AllocateKeepsDue(cfg: Config, s: State, a: Action)
    requires Inv(cfg, s) && DueInv(cfg, s) && a.Allocate? && Respects(ByDeadline(true), s, a)
    ensures DueInv(cfg, Step(cfg, s, a))
  {
    hide Pick, MarkAll, Granted, Inv, Visible;
    var s' := Step(cfg, s, a);
    if a.reqs != [] {
      forall p | p in s'.due && s'.now < s'.due[p]
        ensures p.slot in s'.table && s'.table[p.slot].owner == p.owner && s'.due[p] <= s'.table[p.slot].expiry
      {
        DueKeepsReservation(cfg, s, a, p);
      }
    }
  }

  lemma DueKeepsReservation(cfg: Config, s: State, a: Action, p: Publisher)
    requires Inv(cfg, s) && DueInv(cfg, s) && a.Allocate? && a.reqs != []
    requires var s' := Step(cfg, s, a); p in s'.due && s'.now < s'.due[p]
    ensures var s' := Step(cfg, s, a);
      p.slot in s'.table && s'.table[p.slot].owner == p.owner && s'.due[p] <= s'.table[p.slot].expiry
  {
    hide Pick, MarkAll, Granted, Visible;
    TableAfter(cfg, s, a, p.slot);
    if p.owner == a.id && p.slot in GrantedBy(cfg, s, a) {
      assert Step(cfg, s, a).due[p] <= s.now + cfg.ttl;
    } else {
      assert p in s.due && s.now < s.due[p] && Holds(s, p.owner, p.slot);
      if p.slot in GrantedBy(cfg, s, a) {
        GrantedAreFree(cfg, s, a, p.slot);
      }
      OwnSlotIsInvisible(cfg, s, p, a.id);
    }
  }

  /** The slot of a start that has not bound yet shows nobody's container. */
  lemma OwnSlotIsInvisible(cfg: Config, s: State, p: Publisher, me: Instance)
    requires Exclusive(s) && p !in s.running && Holds(s, p.owner, p.slot)
    ensures p.slot !in Visible(cfg, s, me)
  {
    forall q | q in s.running ensures q.slot != p.slot {
      assert q.slot == p.slot ==> q == Publisher(q.owner, p.slot) && Holds(s, q.owner, p.slot);
    }
  }

  lemma StepKeepsDue(cfg: Config, s: State, a: Action)
    requires Inv(cfg, s) && DueInv(cfg, s) && Respects(ByDeadline(true), s, a)
    ensures Respects(ByReservation, s, a) && DueInv(cfg, Step(cfg, s, a))
  {
    hide Pick, MarkAll, Granted, AllocateStep, Exclusive;
    if a.Allocate? {
      AllocateKeepsDue(cfg, s, a);
    }
  }

  /** The guarantee, from the weaker assumption a reader would expect (containers bind within the
      TTL of their grant), for runs in which an instance is started only when it publishes nothing. */
  lemma {:induction false} ExclusiveWithinDeadline(cfg: Config, s: State, acts: seq<Action>)
    requires Inv(cfg, s) && DueInv(cfg, s) && IsRun(cfg, ByDeadline(true), s, acts)
    ensures IsRun(cfg, ByReservation, s, acts) && Exclusive(Exec(cfg, s, acts))
    decreases acts
  {
    hide Step, Inv, Exclusive, DueInv, Respects;
    if acts == [] {
      InvIsExclusive(cfg, s);
    } else {
      StepKeepsDue(cfg, s, acts[0]);
      StepKeepsInv(cfg, s, acts[0]);
      ExclusiveWithinDeadline(cfg, Step(cfg, s, acts[0]), acts[1..]);
    }
  }

  /** From an agent that has just started, with in-range sidecars and exclusive publishers. */
  lemma ExclusiveFromStart(cfg: Config, s: State, acts: seq<Action>)
    requires Init(cfg, s) && IsRun(cfg, ByDeadline(true), s, acts)
    ensures Exclusive(Exec(cfg, s, acts))
  {
    InitIsInv(cfg, s);
    ExclusiveWithinDeadline(cfg, s, acts);
  }

  // ---- Where the guarantee stops ------------------------------------------------------

  /** A request of one port whose remembered port nobody else holds gets it back. */
  lemma SoleRequestIsSticky(cfg: Config, s: State, id: Instance, req: Request, port: Port)
    requires id in s.sidecars && req.name in s.sidecars[id] && s.sidecars[id][req.name] == port
    requires Slot(req.proto, port) !in Visible(cfg, s, id)
    requires var slot := Slot(req.proto, port);
      slot in s.table && s.now < s.table[slot].expiry ==> s.table[slot].owner == id
    ensures var a := Allocate(id, [req], true, true); var s' := Step(cfg, s, a);
      && GrantedBy(cfg, s, a) == {Slot(req.proto, port)}
      && s'.sidecars == s.sidecars[id := map[req.name := port]]
      && s'.due == s.due[Publisher(id, Slot(req.proto, port)) := s.now + cfg.ttl]
      && Slot(req.proto, port) in s'.table && s'.table[Slot(req.proto, port)] == Reservation(s.now + cfg.ttl, id)
  {
    hide Pick, MarkAll, Granted, NewSticky, Visible;
    var a := Allocate(id, [req], true, true);
    SolePick(CallOf(cfg, s, a), req, port);
    SoleGrant(req, port);
    TableAfter(cfg, s, a, Slot(req.proto, port));
    assert Publisher(id, Slot(req.proto, port)) in s.due[Publisher(id, Slot(req.proto, port)) := s.now + cfg.ttl];
  }

  lemma SolePick(c: Call, req: Request, port: Port)
    requires c.reqs == [req] && req.name in c.sticky && c.sticky[req.name] == port && Slot(req.proto, port) !in c.held
    ensures Pick(c) == Picks([port], None)
  {
    hide ChooseAt;
    assert Granted(c.reqs, []) == {};
    StickyIsChosen(c, 0, [], port);
    assert PickFirst(c, 0) == Picks([], None);
    PickFirstGrows(c, [], port);
  }

  lemma SoleGrant(req: Request, port: Port)
    ensures Granted([req], [port]) == {Slot(req.proto, port)}
    ensures NewSticky([req], [port]) == map[req.name := port]
  {
    assert Slot([req][0].proto, [port][0]) in Granted([req], [port]);
    assert [port][..0] == [];
    assert NewSticky([req], []) == map[];
  }

  /** The five steps: b's owner is redeployed over its running container, `other` allocates while
      that container is still up, the container stops, `taker` asks for the port it remembers,
      and the new container binds. */
  function RedeployRun(b: Publisher, name: string, other: Instance, otherReq: Request,
                       taker: Instance, takerName: string): seq<Action>
  {
    [Allocate(b.owner, [Request(name, b.slot.proto, false)], true, true),
     Allocate(other, [otherReq], true, true),
     Stop(b),
     Allocate(taker, [Request(takerName, b.slot.proto, false)], true, true),
     Bind(b)]
  }

  /** Without the start-after-stop discipline the guarantee fails: from every state of the invariant in which a
      running publisher and an instance that used its port before both remember that port, its redeploy lets that
      instance be granted the port it then binds, although it binds within the TTL of its own grant. */
  lemma RedeployBreaksExclusivity(cfg: Config, s: State, b: Publisher, name: string, other: Instance,
                                  otherReq: Request, taker: Instance, takerName: string)
    requires Inv(cfg, s) && cfg.ttl > 0 && b in s.running
    requires b.owner in s.sidecars && name in s.sidecars[b.owner] && s.sidecars[b.owner][name] == b.slot.port
    requires taker in s.sidecars && takerName in s.sidecars[taker] && s.sidecars[taker][takerName] == b.slot.port
    requires other != b.owner && taker != b.owner && other != taker
    ensures var acts := RedeployRun(b, name, other, otherReq, taker, takerName);
      IsRun(cfg, ByDeadline(false), s, acts) && !Exclusive(Exec(cfg, s, acts))
  {
    hide Pick, MarkAll, Granted, AllocateStep, Inv;
    var acts := RedeployRun(b, name, other, otherReq, taker, takerName);
    var s1 := Step(cfg, s, acts[0]);
    FirstThreeSteps(cfg, s, b, name, other, otherReq, taker);
    var s3 := Step(cfg, Step(cfg, s1, acts[1]), acts[2]);
    SoleRequestIsSticky(cfg, s3, taker, Request(takerName, b.slot.proto, false), b.slot.port);
    var s4 := Step(cfg, s3, acts[3]);
    assert b in s4.due && s4.due[b] == s.now + cfg.ttl && s4.now == s.now by {
      AllocateKeepsClock(cfg, s3, acts[3]);
    }
    var s5 := Step(cfg, s4, acts[4]);
    assert Holds(s5, b.owner, b.slot) && Holds(s5, taker, b.slot);
    Unroll(cfg, s, acts);
  }

  /** A five-step run, step by step. */
  lemma Unroll(cfg: Config, s: State, acts: seq<Action>)
    requires |acts| == 5
    ensures var s1 := Step(cfg, s, acts[0]); var s2 := Step(cfg, s1, acts[1]); var s3 := Step(cfg, s2, acts[2]);
      var s4 := Step(cfg, s3, acts[3]); var s5 := Step(cfg, s4, acts[4]);
      && Exec(cfg, s, acts) == s5
      && forall d :: IsRun(cfg, d, s, acts) <==>
           && Respects(d, s, acts[0]) && Respects(d, s1, acts[1]) && Respects(d, s2, acts[2])
           && Respects(d, s3, acts[3]) && Respects(d, s4, acts[4])
  {
    hide Step, Respects;
    var t1, t2, t3, t4 := acts[1..], acts[2..], acts[3..], acts[4..];
    assert t1[1..] == t2 && t2[1..] == t3 && t3[1..] == t4 && t4[1..] == [];
    var s1 := Step(cfg, s, acts[0]);
    var s2 := Step(cfg, s1, acts[1]);
    var s3 := Step(cfg, s2, acts[2]);
    var s4 := Step(cfg, s3, acts[3]);
    var s5 := Step(cfg, s4, acts[4]);
    assert Exec(cfg, s, acts) == Exec(cfg, s1, t1) == Exec(cfg, s2, t2) == Exec(cfg, s3, t3)
      == Exec(cfg, s4, t4) == Exec(cfg, s5, []);
    forall d
      ensures IsRun(cfg, d, s, acts) <==>
        && Respects(d, s, acts[0]) && Respects(d, s1, acts[1]) && Respects(d, s2, acts[2])
        && Respects(d, s3, acts[3]) && Respects(d, s4, acts[4])
    {
      assert IsRun(cfg, d, s4, t4) <==> Respects(d, s4, acts[4]) && IsRun(cfg, d, s5, []);
      assert IsRun(cfg, d, s3, t3) <==> Respects(d, s3, acts[3]) && IsRun(cfg, d, s4, t4);
      assert IsRun(cfg, d, s2, t2) <==> Respects(d, s2, acts[2]) && IsRun(cfg, d, s3, t3);
      assert IsRun(cfg, d, s1, t1) <==> Respects(d, s1, acts[1]) && IsRun(cfg, d, s2, t2);
    }
  }

  lemma AllocateKeepsClock(cfg: Config, s: State, a: Action)
    requires a.Allocate?
    ensures Step(cfg, s, a).now == s.now && Step(cfg, s, a).running == s.running
    ensures forall p :: p in s.due && p.owner != a.id ==> p in Step(cfg, s, a).due && Step(cfg, s, a).due[p] == s.due[p]
    ensures forall id :: id != a.id && id in s.sidecars ==>
      id in Step(cfg, s, a).sidecars && Step(cfg, s, a).sidecars[id] == s.sidecars[id]
  {
    hide Pick, MarkAll, Granted;
  }

  lemma FirstThreeSteps(cfg: Config, s: State, b: Publisher, name: string, other: Instance,
                        otherReq: Request, taker: Instance)
    requires Inv(cfg, s) && cfg.ttl > 0 && b in s.running
    requires b.owner in s.sidecars && name in s.sidecars[b.owner] && s.sidecars[b.owner][name] == b.slot.port
    requires taker in s.sidecars && other != b.owner && taker != b.owner && other != taker
    ensures var acts := RedeployRun(b, name, other, otherReq, taker, "");
      var s1 := Step(cfg, s, acts[0]); var s2 := Step(cfg, s1, acts[1]); var s3 := Step(cfg, s2, acts[2]);
      && b.slot !in s3.table && b.slot !in Visible(cfg, s3, taker)
      && b in s3.due && s3.due[b] == s.now + cfg.ttl && s3.now == s.now
      && taker in s3.sidecars && s3.sidecars[taker] == s.sidecars[taker]
  {
    hide Pick, MarkAll, Granted, AllocateStep;
    var acts := RedeployRun(b, name, other, otherReq, taker, "");
    assert b == Publisher(b.owner, b.slot) && Holds(s, b.owner, b.slot);
    OnlyHolder(cfg, s, b);
    SoleRequestIsSticky(cfg, s, b.owner, Request(name, b.slot.proto, false), b.slot.port);
    var s1 := Step(cfg, s, acts[0]);
    AllocateKeepsClock(cfg, s, acts[0]);
    AllocateKeepsInv(cfg, s, acts[0]);
    var s2 := Step(cfg, s1, acts[1]);
    AllocateKeepsClock(cfg, s1, acts[1]);
    ReservationSurvivesIff(cfg, s1, acts[1], b.owner, b.slot);
    TableAfter(cfg, s1, acts[1], b.slot);
    assert Holds(s1, b.owner, b.slot);
    if b.slot in GrantedBy(cfg, s1, acts[1]) {
      GrantedAreFree(cfg, s1, acts[1], b.slot);
    }
    OnlyHolder(cfg, s1, b);
  }

  lemma OnlyHolder(cfg: Config, s: State, b: Publisher)
    requires Inv(cfg, s) && b in s.running
    ensures forall p :: p in s.running && p.slot == b.slot ==> p == b
    ensures b.slot !in Visible(cfg, s, b.owner)
    ensures b.slot in s.table && s.now < s.table[b.slot].expiry ==> s.table[b.slot].owner == b.owner
    ensures forall id :: b.slot !in Visible(cfg, s.(running := s.running - {b}), id)
  {
    forall p | p in s.running && p.slot == b.slot ensures p == b {
      assert p == Publisher(p.owner, p.slot) && b == Publisher(b.owner, b.slot);
      assert Holds(s, p.owner, b.slot) && Holds(s, b.owner, b.slot);
    }
    if b.slot in s.table && s.now < s.table[b.slot].expiry {
      assert Holds(s, s.table[b.slot].owner, b.slot) && Holds(s, b.owner, b.slot);
    }
  }

  /** Nor without in-range memory: a remembered port outside the range is handed out although
      another instance publishes it, because the enumeration does not report it. */
  lemma OutOfRangeMemoryCollides(cfg: Config, s: State, id: Instance, req: Request, port: Port, other: Instance)
    requires id in s.sidecars && req.name in s.sidecars[id] && s.sidecars[id][req.name] == port
    requires !InRange(cfg, port) && cfg.ttl > 0
    requires other != id && Publisher(other, Slot(req.proto, port)) in s.running
    requires Slot(req.proto, port) !in s.table
    ensures !Exclusive(Step(cfg, s, Allocate(id, [req], true, true)))
  {
    hide AllocateStep, Pick;
    var a := Allocate(id, [req], true, true);
    SoleRequestIsSticky(cfg, s, id, req, port);
    AllocateKeepsClock(cfg, s, a);
    var s' := Step(cfg, s, a);
    assert Holds(s', id, Slot(req.proto, port)) && Holds(s', other, Slot(req.proto, port));
  }
}
