/**
 The host-port allocator: the daemon's published ports, the table of pending
 reservations, and the locked enumerate-pick-reserve loop of get_greffon_info.

 The reservation table is nested (protocol, then port) as in the program; Flat
 and Slots give its mathematical value, a map and a set over (protocol, port).
 */
module L4Ports {
  import opened Values

  type Instance = string
  type Port = int

  datatype Slot = Slot(proto: string, port: Port)
  datatype Reservation = Reservation(expiry: int, owner: Instance)

  type Pending = map<string, map<Port, Reservation>>
  type PortSets = map<string, set<Port>>
  type Table = map<Slot, Reservation>

  ghost function Flat(pending: Pending): (t: Table)
    ensures forall s :: s in t <==> s.proto in pending && s.port in pending[s.proto]
    ensures forall s :: s in t ==> t[s] == pending[s.proto][s.port]
  {
    var slots := set proto, port | proto in pending && port in pending[proto] :: Slot(proto, port);
    map s | s in slots :: pending[s.proto][s.port]
  }

  ghost function Slots(sets: PortSets): (r: set<Slot>)
    ensures forall s :: s in r <==> s.proto in sets && s.port in sets[s.proto]
  {
    set proto, port | proto in sets && port in sets[proto] :: Slot(proto, port)
  }

  // ---- What the daemon shows -------------------------------------------------

  datatype PortSpec = PortSpec(kind: string, publicPort: Option<Port>)
  datatype Container = Container(project: Option<Instance>, specs: seq<PortSpec>)

  function Lower(s: string): string {
    seq(|s|, i requires 0 <= i < |s| => if 'A' <= s[i] <= 'Z' then s[i] - 'A' + 'a' else s[i])
  }

  function Protocol(kind: string): string {
    Lower(if kind == "" then "tcp" else kind)
  }

  /** An entry without a type is tcp, and the case of a type does not matter. */
  lemma ProtocolIs(kind: string)
    ensures Protocol("") == "tcp" && Protocol("TCP") == Protocol("tcp") == "tcp"
    ensures Protocol("UDP") == Protocol("udp") == "udp"
    ensures kind != "" ==> |Protocol(kind)| == |kind| && forall i :: 0 <= i < |kind| ==>
      Protocol(kind)[i] == if 'A' <= kind[i] <= 'Z' then kind[i] - 'A' + 'a' else kind[i]
  {
  }

  /** A running container outside `me`'s own compose project publishes `s`, inside the range. */
  ghost predicate IsPublished(containers: seq<Container>, me: Instance, lo: Port, hi: Port, s: Slot) {
    exists c :: c in containers && PublishedIn(c, me, lo, hi, s, |c.specs|)
  }

  /** One of the first n port entries of `c` publishes `s`. */
  ghost predicate PublishedIn(c: Container, me: Instance, lo: Port, hi: Port, s: Slot, n: nat)
    requires n <= |c.specs|
  {
    && c.project != Some(me)
    && lo <= s.port <= hi
    && exists j :: 0 <= j < n && c.specs[j].publicPort == Some(s.port) && Protocol(c.specs[j].kind) == s.proto
  }

  lemma PublishedGrows(containers: seq<Container>, c: Container, me: Instance, lo: Port, hi: Port)
    ensures forall s :: IsPublished(containers + [c], me, lo, hi, s) <==>
      IsPublished(containers, me, lo, hi, s) || PublishedIn(c, me, lo, hi, s, |c.specs|)
  {
    forall s | IsPublished(containers, me, lo, hi, s) || PublishedIn(c, me, lo, hi, s, |c.specs|)
      ensures IsPublished(containers + [c], me, lo, hi, s)
    {
      assert c in containers + [c];
      if IsPublished(containers, me, lo, hi, s) {
        var c' :| c' in containers && PublishedIn(c', me, lo, hi, s, |c'.specs|);
        assert c' in containers + [c];
      }
    }
  }

  method PublishedL4Ports(containers: seq<Container>, lo: Port, hi: Port, me: Instance) returns (occupied: PortSets)
    ensures forall s :: s in Slots(occupied) <==> IsPublished(containers, me, lo, hi, s)
  {
    occupied := map[];
    for i := 0 to |containers|
      invariant forall s :: s in Slots(occupied) <==> IsPublished(containers[..i], me, lo, hi, s)
    {
      var container := containers[i];
      ghost var before := Slots(occupied);
      if container.project == Some(me) {
        PublishedGrows(containers[..i], container, me, lo, hi);
        assert containers[..i + 1] == containers[..i] + [container];
        continue;
      }
      for j := 0 to |container.specs|
        invariant forall s :: s in Slots(occupied) <==> s in before || PublishedIn(container, me, lo, hi, s, j)
      {
        var spec := container.specs[j];
        if spec.publicPort.Some? && lo <= spec.publicPort.value <= hi {
          var proto := Protocol(spec.kind);
          occupied := occupied[proto := GetOr(occupied, proto, {}) + {spec.publicPort.value}];
        }
      }
      PublishedGrows(containers[..i], container, me, lo, hi);
      assert containers[..i + 1] == containers[..i] + [container];
    }
    assert containers[..|containers|] == containers;
  }

  // ---- The reservation table --------------------------------------------------

  /** Reservations that are neither expired nor already visible in the daemon. */
  ghost function Pruned(t: Table, occ: set<Slot>, now: int): Table {
    map s | s in t && now < t[s].expiry && s !in occ :: t[s]
  }

  ghost function HeldByOthers(t: Table, occ: set<Slot>, now: int, me: Instance): set<Slot> {
    set s | s in Pruned(t, occ, now) && t[s].owner != me
  }

  // The same two, one protocol at a time, as the nested loops compute them.

  ghost function Kept(entries: map<Port, Reservation>, occ: set<Port>, now: int): map<Port, Reservation> {
    map p | p in entries && now < entries[p].expiry && p !in occ :: entries[p]
  }

  ghost function Reserved(entries: map<Port, Reservation>, occ: set<Port>, now: int, me: Instance): set<Port> {
    set p | p in Kept(entries, occ, now) && entries[p].owner != me
  }

  function EntriesOf(pending: Pending, proto: string): map<Port, Reservation> {
    GetOr(pending, proto, map[])
  }

  lemma NothingReserved(entries: map<Port, Reservation>, occ: set<Port>, now: int, me: Instance)
    requires Kept(entries, occ, now) == map[]
    ensures Reserved(entries, occ, now, me) == {}
  {
  }

  method PruneProtocol(entries: map<Port, Reservation>, occ: set<Port>, exclude: Instance, now: int)
    returns (kept: map<Port, Reservation>, reserved: set<Port>)
    ensures kept == Kept(entries, occ, now) && reserved == Reserved(entries, occ, now, exclude)
  {
    kept, reserved := map[], {};
    var items := entries.Items;
    ghost var done: set<Port> := {};
    while items != {}
      invariant forall it :: it in items <==> it in entries.Items && it.0 !in done
      invariant kept == map p | p in Kept(entries, occ, now) && p in done :: entries[p]
      invariant reserved == set p | p in Reserved(entries, occ, now, exclude) && p in done
      decreases items
    {
      var item :| item in items;
      var (port, entry) := item;
      items := items - {item};
      done := done + {port};
      if entry.expiry <= now || port in occ {
        continue;
      }
      kept := kept[port := entry];
      if entry.owner != exclude {
        reserved := reserved + {port};
      }
    }
    assert forall p :: p in entries ==> (p, entries[p]) in entries.Items;
  }

  lemma PruneFlattens(before: Pending, after: Pending, occupied: PortSets, others: PortSets, now: int, me: Instance)
    requires after.Keys <= before.Keys && others.Keys <= before.Keys
    requires forall proto :: proto in before ==>
      && EntriesOf(after, proto) == Kept(before[proto], GetOr(occupied, proto, {}), now)
      && GetOr(others, proto, {}) == Reserved(before[proto], GetOr(occupied, proto, {}), now, me)
    ensures Flat(after) == Pruned(Flat(before), Slots(occupied), now)
    ensures Slots(others) == HeldByOthers(Flat(before), Slots(occupied), now, me)
  {
    forall s: Slot
      ensures s in Flat(after) <==> s in Pruned(Flat(before), Slots(occupied), now)
    {
      PruneFlattensAt(before, after, occupied, others, now, me, s);
    }
    forall s: Slot | s in Flat(after)
      ensures Flat(after)[s] == Flat(before)[s]
    {
      PruneFlattensAt(before, after, occupied, others, now, me, s);
    }
    forall s: Slot
      ensures s in Slots(others) <==> s in HeldByOthers(Flat(before), Slots(occupied), now, me)
    {
      PruneFlattensAt(before, after, occupied, others, now, me, s);
    }
  }

  lemma PruneFlattensAt(before: Pending, after: Pending, occupied: PortSets, others: PortSets, now: int, me: Instance,
                        s: Slot)
    requires after.Keys <= before.Keys && others.Keys <= before.Keys
    requires s.proto in before ==>
      && EntriesOf(after, s.proto) == Kept(before[s.proto], GetOr(occupied, s.proto, {}), now)
      && GetOr(others, s.proto, {}) == Reserved(before[s.proto], GetOr(occupied, s.proto, {}), now, me)
    ensures s in Flat(after) <==> s in Pruned(Flat(before), Slots(occupied), now)
    ensures s in Flat(after) ==> Flat(after)[s] == Flat(before)[s]
    ensures s in Slots(others) <==> s in HeldByOthers(Flat(before), Slots(occupied), now, me)
  {
    if s.proto in before {
      var kept := Kept(before[s.proto], GetOr(occupied, s.proto, {}), now);
      assert s in Flat(after) <==> s.port in EntriesOf(after, s.proto);
      assert s.port in GetOr(occupied, s.proto, {}) <==> s in Slots(occupied);
      assert s in Slots(others) <==> s.port in GetOr(others, s.proto, {});
    }
  }

  // ---- One pick ---------------------------------------------------------------

  datatype Request = Request(name: string, proto: string, samePort: bool)

  datatype AllocError =
    | Unavailable
    | SaveFailed
    | SamePortConflict(name: string, port: Port)
    | RangeExhausted(lo: Port, hi: Port)

  predicate IsLowestFree(lo: Port, hi: Port, taken: set<Port>, p: Port) {
    lo <= p <= hi && p !in taken && forall q :: lo <= q < p ==> q in taken
  }

  function LowestFree(lo: Port, hi: Port, taken: set<Port>): (r: Option<Port>)
    ensures r.Some? ==> IsLowestFree(lo, hi, taken, r.value)
    ensures r.None? <==> forall p :: lo <= p <= hi ==> p in taken
    decreases hi - lo + 1
  {
    if hi < lo then None
    else if lo !in taken then Some(lo)
    else LowestFree(lo + 1, hi, taken)
  }

  method LowestFreePort(lo: Port, hi: Port, taken: set<Port>) returns (r: Option<Port>)
    ensures r == LowestFree(lo, hi, taken)
    ensures r.Some? ==> IsLowestFree(lo, hi, taken, r.value)
    ensures r.None? <==> forall p :: lo <= p <= hi ==> p in taken
  {
    var candidate := lo;
    while candidate <= hi
      invariant forall q :: lo <= q < candidate ==> q in taken
      invariant candidate <= hi + 1 || candidate == lo
      invariant LowestFree(lo, hi, taken) == LowestFree(candidate, hi, taken)
      decreases hi - candidate
    {
      if candidate !in taken {
        return Some(candidate);
      }
      candidate := candidate + 1;
    }
    return None;
  }

  function PortsOf(taken: set<Slot>, proto: string): (r: set<Port>)
    ensures forall p :: p in r <==> Slot(proto, p) in taken
  {
    set s | s in taken && s.proto == proto :: s.port
  }

  /** The port for one request, given the remembered port and what is taken. */
  function Choose(req: Request, prev: Option<Port>, tunnel: bool, lo: Port, hi: Port, taken: set<Slot>)
    : Result<Port, AllocError>
  {
    if prev.Some? && Slot(req.proto, prev.value) !in taken then Ok(prev.value)
    else if req.samePort && !tunnel && prev.Some? then Err(SamePortConflict(req.name, prev.value))
    else match LowestFree(lo, hi, PortsOf(taken, req.proto))
      case Some(p) => Ok(p)
      case None => Err(RangeExhausted(lo, hi))
  }

  /** One iteration's decision, against the three sources of taken ports. */
  method PickOne(req: Request, prev: Option<Port>, tunnel: bool, lo: Port, hi: Port,
                 occupied: PortSets, others: PortSets, batch: PortSets) returns (r: Result<Port, AllocError>)
    ensures r == Choose(req, prev, tunnel, lo, hi, Slots(occupied) + Slots(others) + Slots(batch))
  {
    var taken := GetOr(occupied, req.proto, {}) + GetOr(others, req.proto, {}) + GetOr(batch, req.proto, {});
    ghost var all := Slots(occupied) + Slots(others) + Slots(batch);
    forall p ensures p in taken <==> p in PortsOf(all, req.proto) {
      assert p in taken <==> Slot(req.proto, p) in all;
    }
    assert taken == PortsOf(all, req.proto);
    if prev.Some? && prev.value !in taken {
      return Ok(prev.value);
    } else if req.samePort && !tunnel && prev.Some? {
      return Err(SamePortConflict(req.name, prev.value));
    }
    var free := LowestFreePort(lo, hi, taken);
    if free.None? {
      return Err(RangeExhausted(lo, hi));
    }
    return Ok(free.value);
  }

  function Remembered(sticky: map<string, Port>, name: string): Option<Port> {
    if name in sticky then Some(sticky[name]) else None
  }

  // ---- A whole call -----------------------------------------------------------

  /** The parameters of one call that do not change while it runs. */
  datatype Call = Call(reqs: seq<Request>, sticky: map<string, Port>, tunnel: bool, lo: Port, hi: Port,
                       held: set<Slot>)  // everyone else's slots: daemon-visible or reserved

  datatype Picks = Picks(ports: seq<Port>, error: Option<AllocError>)

  function Granted(reqs: seq<Request>, ports: seq<Port>): (r: set<Slot>)
    requires |ports| <= |reqs|
  {
    set i | 0 <= i < |ports| :: Slot(reqs[i].proto, ports[i])
  }

  /** Request i of the call, served with the given ports already granted. */
  function ChooseAt(c: Call, i: nat, before: seq<Port>): Result<Port, AllocError>
    requires |before| <= i < |c.reqs|
  {
    var req := c.reqs[i];
    Choose(req, Remembered(c.sticky, req.name), c.tunnel, c.lo, c.hi, c.held + Granted(c.reqs, before))
  }

  /** The outcome after the first n requests: the ports granted before any error. */
  function PickFirst(c: Call, n: nat): (r: Picks)
    requires n <= |c.reqs|
    ensures |r.ports| <= n && (r.error.None? <==> |r.ports| == n)
  {
    if n == 0 then Picks([], None)
    else
      var before := PickFirst(c, n - 1);
      if before.error.Some? then before
      else
        match ChooseAt(c, n - 1, before.ports)
        case Ok(p) => Picks(before.ports + [p], None)
        case Err(e) => Picks(before.ports, Some(e))
  }

  function Pick(c: Call): (r: Picks)
    ensures |r.ports| <= |c.reqs| && (r.error.None? <==> |r.ports| == |c.reqs|)
  {
    PickFirst(c, |c.reqs|)
  }

  /** What is taken when request i is served. */
  function TakenAt(c: Call, i: nat): set<Slot>
    requires i <= |Pick(c).ports|
  {
    c.held + Granted(c.reqs, Pick(c).ports[..i])
  }

  ghost function MarkAll(t: Table, me: Instance, reqs: seq<Request>, ports: seq<Port>, expiry: int): (r: Table)
    requires |ports| <= |reqs|
  {
    if ports == [] then t
    else
      var n := |ports| - 1;
      MarkAll(t, me, reqs, ports[..n], expiry)[Slot(reqs[n].proto, ports[n]) := Reservation(expiry, me)]
  }

  function NewSticky(reqs: seq<Request>, ports: seq<Port>): (r: map<string, Port>)
    requires |ports| <= |reqs|
  {
    if ports == [] then map[]
    else
      var n := |ports| - 1;
      NewSticky(reqs, ports[..n])[reqs[n].name := ports[n]]
  }

  type Sidecars = map<Instance, map<string, Port>>

  /** The reservation table, the sidecar files and the answer after one call. */
  ghost function Allocated(t: Table, sidecars: Sidecars, id: Instance, reqs: seq<Request>, tunnel: bool,
                           lo: Port, hi: Port, occ: set<Slot>, now: int, ttl: nat, saves: bool)
    : (Table, Sidecars, Result<seq<Port>, AllocError>)
  {
    var picks := Pick(CallFor(t, sidecars, id, reqs, tunnel, lo, hi, occ, now));
    var t' := MarkAll(Pruned(t, occ, now), id, reqs, picks.ports, now + ttl);
    match picks.error
    case Some(e) => (t', sidecars, Err(e))
    case None =>
      if saves then (t', sidecars[id := NewSticky(reqs, picks.ports)], Ok(picks.ports))
      else (t', sidecars, Err(SaveFailed))
  }

  ghost function CallFor(t: Table, sidecars: Sidecars, id: Instance, reqs: seq<Request>, tunnel: bool,
                         lo: Port, hi: Port, occ: set<Slot>, now: int): Call
  {
    Call(reqs, GetOr(sidecars, id, map[]), tunnel, lo, hi, occ + HeldByOthers(t, occ, now, id))
  }

  ghost predicate AskedFor(reqs: seq<Request>, n: nat, name: string)
    requires n <= |reqs|
  {
    exists i :: 0 <= i < n && reqs[i].name == name
  }

  ghost predicate IsLast(reqs: seq<Request>, n: nat, i: nat)
    requires i < n <= |reqs|
  {
    forall j :: i < j < n ==> reqs[j].name != reqs[i].name
  }

  /** What is remembered: each name that was asked for, with the port its last request was given, and no other. */
  ghost predicate Remembers(sticky: map<string, Port>, reqs: seq<Request>, ports: seq<Port>)
    requires |ports| <= |reqs|
  {
    && (forall name :: name in sticky <==> AskedFor(reqs, |ports|, name))
    && forall i: nat :: i < |ports| && IsLast(reqs, |ports|, i) ==>
         reqs[i].name in sticky && sticky[reqs[i].name] == ports[i]
  }

  lemma OneMoreAsked(reqs: seq<Request>, n: nat, name: string, i: nat)
    requires n < |reqs| && i <= n
    ensures AskedFor(reqs, n + 1, name) <==> AskedFor(reqs, n, name) || name == reqs[n].name
    ensures i < n && IsLast(reqs, n + 1, i) ==> IsLast(reqs, n, i) && reqs[n].name != reqs[i].name
  {
  }

  lemma {:induction false} NewStickyIs(reqs: seq<Request>, ports: seq<Port>)
    requires |ports| <= |reqs|
    ensures Remembers(NewSticky(reqs, ports), reqs, ports)
  {
    hide AskedFor, IsLast;
    if ports == [] {
      forall name ensures !AskedFor(reqs, 0, name) {
        NothingAsked(reqs, name);
      }
    } else {
      var n := |ports| - 1;
      var front, before := ports[..n], NewSticky(reqs, ports[..n]);
      var sticky := before[reqs[n].name := ports[n]];
      NewStickyIs(reqs, front);
      forall name ensures name in sticky <==> AskedFor(reqs, n + 1, name) {
        OneMoreAsked(reqs, n, name, 0);
      }
      forall i: nat | i < |ports| && IsLast(reqs, |ports|, i)
        ensures reqs[i].name in sticky && sticky[reqs[i].name] == ports[i]
      {
        OneMoreAsked(reqs, n, reqs[i].name, i);
        if i < n {
          assert front[i] == ports[i];
        }
      }
    }
  }

  lemma NothingAsked(reqs: seq<Request>, name: string)
    ensures !AskedFor(reqs, 0, name)
  {
  }

  // ---- The class: module state of the allocator plus the sidecar files --------

  class Allocator {
    var pending: Pending
    var sidecars: Sidecars
    const ttl: nat

    constructor (ttl: nat)
      ensures Flat(pending) == map[] && sidecars == map[] && this.ttl == ttl
    {
      pending, sidecars := map[], map[];
      this.ttl := ttl;
    }

    method PendingAndPrune(occupied: PortSets, exclude: Instance, now: int) returns (others: PortSets)
      modifies this`pending
      ensures Flat(pending) == Pruned(old(Flat(pending)), Slots(occupied), now)
      ensures Slots(others) == HeldByOthers(old(Flat(pending)), Slots(occupied), now, exclude)
    {
      hide Flat, Slots, Pruned, HeldByOthers, Kept, Reserved;
      ghost var before := pending;
      others := map[];
      var protos := pending.Keys;
      while protos != {}
        invariant protos <= before.Keys && pending.Keys <= before.Keys
        invariant forall proto :: proto in protos ==> proto in pending && pending[proto] == before[proto]
        invariant others.Keys !! protos && others.Keys <= before.Keys
        invariant forall proto :: proto in before && proto !in protos ==>
          && EntriesOf(pending, proto) == Kept(before[proto], GetOr(occupied, proto, {}), now)
          && GetOr(others, proto, {}) == Reserved(before[proto], GetOr(occupied, proto, {}), now, exclude)
        decreases protos
      {
        var proto :| proto in protos;
        var kept, reserved := PruneProtocol(pending[proto], GetOr(occupied, proto, {}), exclude, now);
        protos := protos - {proto};
        if kept != map[] {
          pending := pending[proto := kept];
          if reserved != {} {
            others := others[proto := reserved];
          }
        } else {
          NothingReserved(before[proto], GetOr(occupied, proto, {}), now, exclude);
          pending := pending - {proto};
        }
      }
      PruneFlattens(before, pending, occupied, others, now, exclude);
    }

    method MarkPending(id: Instance, proto: string, port: Port, now: int)
      modifies this`pending
      ensures Flat(pending) == old(Flat(pending))[Slot(proto, port) := Reservation(now + ttl, id)]
    {
      pending := pending[proto := GetOr(pending, proto, map[])[port := Reservation(now + ttl, id)]];
    }

    /** One iteration: pick, reserve, and note the port as taken by this call. */
    method ReserveOne(id: Instance, req: Request, prev: Option<Port>, tunnel: bool, lo: Port, hi: Port,
                      occupied: PortSets, others: PortSets, batch: PortSets, now: int)
      returns (picked: Result<Port, AllocError>, batch': PortSets)
      modifies this`pending
      ensures picked == Choose(req, prev, tunnel, lo, hi, Slots(occupied) + Slots(others) + Slots(batch))
      ensures picked.Err? ==> unchanged(this) && batch' == batch
      ensures picked.Ok? ==>
        && Flat(pending) == old(Flat(pending))[Slot(req.proto, picked.value) := Reservation(now + ttl, id)]
        && Slots(batch') == Slots(batch) + {Slot(req.proto, picked.value)}
    {
      batch' := batch;
      picked := PickOne(req, prev, tunnel, lo, hi, occupied, others, batch);
      if picked.Ok? {
        MarkPending(id, req.proto, picked.value, now);
        batch' := WithPort(batch, req.proto, picked.value);
      }
    }

    /** The loop over the requests. */
    method ReserveAll(id: Instance, reqs: seq<Request>, sticky: map<string, Port>, tunnel: bool, lo: Port, hi: Port,
                      occupied: PortSets, others: PortSets, now: int)
      returns (r: Result<seq<Port>, AllocError>, newSticky: map<string, Port>)
      modifies this`pending
      ensures var picks := Pick(Call(reqs, sticky, tunnel, lo, hi, Slots(occupied) + Slots(others)));
        && Flat(pending) == MarkAll(old(Flat(pending)), id, reqs, picks.ports, now + ttl)
        && (match picks.error
            case Some(e) => r == Err(e)
            case None => r == Ok(picks.ports) && newSticky == NewSticky(reqs, picks.ports))
    {
      hide *;
      ghost var t, expiry := Flat(pending), now + ttl;
      ghost var c := Call(reqs, sticky, tunnel, lo, hi, Slots(occupied) + Slots(others));
      var batch: PortSets := map[];
      newSticky := map[];
      var ports: seq<Port> := [];
      NoPorts();
      ProgressStart(c, t, id, expiry);
      for i := 0 to |reqs|
        invariant |ports| == i
        invariant Progress(c, t, id, expiry, ports, Slots(batch), newSticky, Flat(pending))
      {
        var req := reqs[i];
        var picked;
        ghost var taken, t' := Slots(batch), Flat(pending);
        var prev := Remembered(sticky, req.name);
        picked, batch := ReserveOne(id, req, prev, tunnel, lo, hi, occupied, others, batch, now);
        if picked.Err? {
          ProgressStops(c, t, id, expiry, ports, taken, newSticky, t', picked.error);
          return Err(picked.error), newSticky;
        }
        ProgressStep(c, t, id, expiry, ports, taken, newSticky, t', picked.value);
        newSticky := newSticky[req.name := picked.value];
        ports := ports + [picked.value];
      }
      ProgressDone(c, t, id, expiry, ports, Slots(batch), newSticky, Flat(pending));
      return Ok(ports), newSticky;
    }

    /** The L4 half of get_greffon_info; `containers` is None when the daemon cannot be listed, `saves` whether the
        sticky file could be written. When it could not the start fails, and its ports stay reserved. */
    method Allocate(id: Instance, reqs: seq<Request>, tunnel: bool, lo: Port, hi: Port,
                    containers: Option<seq<Container>>, now: int, saves: bool)
      returns (r: Result<seq<Port>, AllocError>, ghost occ: set<Slot>)
      modifies this`pending, this`sidecars
      ensures reqs == [] ==> r == Ok([]) && unchanged(this)
      ensures reqs != [] && containers.None? ==> r == Err(Unavailable) && unchanged(this)
      ensures reqs != [] && containers.Some? ==>
        && (forall s :: s in occ <==> IsPublished(containers.value, id, lo, hi, s))
        && (Flat(pending), sidecars, r)
           == Allocated(old(Flat(pending)), old(sidecars), id, reqs, tunnel, lo, hi, occ, now, ttl, saves)
      ensures r.Err? ==> sidecars == old(sidecars)
      ensures r.Ok? ==> |r.value| == |reqs| && sidecars - {id} == old(sidecars) - {id}
      ensures r.Ok? && reqs != [] ==> id in sidecars && Remembers(sidecars[id], reqs, r.value)
    {
      hide Pick, MarkAll, NewSticky, Remembers;
      occ := {};
      if reqs == [] {
        return Ok([]), occ;
      }
      var sticky := GetOr(sidecars, id, map[]);
      if containers.None? {
        return Err(Unavailable), occ;
      }
      var occupied := PublishedL4Ports(containers.value, lo, hi, id);
      occ := Slots(occupied);
      var others := PendingAndPrune(occupied, id, now);
      var newSticky;
      r, newSticky := ReserveAll(id, reqs, sticky, tunnel, lo, hi, occupied, others, now);
      if r.Ok? {
        if !saves {
          return Err(SaveFailed), occ;
        }
        NewStickyIs(reqs, r.value);
        sidecars := sidecars[id := newSticky];
      }
    }
  }

  /** batch.setdefault(proto, set()).add(port) */
  function WithPort(sets: PortSets, proto: string, port: Port): (r: PortSets)
    ensures Slots(r) == Slots(sets) + {Slot(proto, port)}
  {
    sets[proto := GetOr(sets, proto, {}) + {port}]
  }

  /** The state of the loop after it has granted `ports`. */
  ghost predicate Progress(c: Call, t: Table, id: Instance, expiry: int, ports: seq<Port>,
                           batch: set<Slot>, newSticky: map<string, Port>, t': Table)
    requires |ports| <= |c.reqs|
  {
    && PickFirst(c, |ports|) == Picks(ports, None)
    && batch == Granted(c.reqs, ports)
    && newSticky == NewSticky(c.reqs, ports)
    && t' == MarkAll(t, id, c.reqs, ports, expiry)
  }

  lemma NoPorts()
    ensures Slots(map[]) == {}
  {
  }

  lemma ProgressStart(c: Call, t: Table, id: Instance, expiry: int)
    ensures Progress(c, t, id, expiry, [], {}, map[], t)
  {
  }

  lemma ProgressStep(c: Call, t: Table, id: Instance, expiry: int, ports: seq<Port>,
                     batch: set<Slot>, newSticky: map<string, Port>, t': Table, p: Port)
    requires |ports| < |c.reqs| && Progress(c, t, id, expiry, ports, batch, newSticky, t')
    requires var req := c.reqs[|ports|];
      Choose(req, Remembered(c.sticky, req.name), c.tunnel, c.lo, c.hi, c.held + batch) == Ok(p)
    ensures var req := c.reqs[|ports|];
      Progress(c, t, id, expiry, ports + [p], batch + {Slot(req.proto, p)}, newSticky[req.name := p],
               t'[Slot(req.proto, p) := Reservation(expiry, id)])
  {
    hide Choose, LowestFree;
    PickFirstGrows(c, ports, p);
    GrantedGrows(c.reqs, ports, p);
    assert (ports + [p])[..|ports|] == ports;
  }

  lemma ProgressStops(c: Call, t: Table, id: Instance, expiry: int, ports: seq<Port>,
                      batch: set<Slot>, newSticky: map<string, Port>, t': Table, e: AllocError)
    requires |ports| < |c.reqs| && Progress(c, t, id, expiry, ports, batch, newSticky, t')
    requires var req := c.reqs[|ports|];
      Choose(req, Remembered(c.sticky, req.name), c.tunnel, c.lo, c.hi, c.held + batch) == Err(e)
    ensures Pick(c) == Picks(ports, Some(e)) && t' == MarkAll(t, id, c.reqs, Pick(c).ports, expiry)
  {
    PickStopsAt(c, |ports| + 1);
  }

  lemma ProgressDone(c: Call, t: Table, id: Instance, expiry: int, ports: seq<Port>,
                     batch: set<Slot>, newSticky: map<string, Port>, t': Table)
    requires |ports| == |c.reqs| && Progress(c, t, id, expiry, ports, batch, newSticky, t')
    ensures Pick(c) == Picks(ports, None) && t' == MarkAll(t, id, c.reqs, Pick(c).ports, expiry)
    ensures newSticky == NewSticky(c.reqs, Pick(c).ports)
  {
  }

  lemma PickFirstGrows(c: Call, ports: seq<Port>, p: Port)
    requires |ports| < |c.reqs| && PickFirst(c, |ports|) == Picks(ports, None)
    requires ChooseAt(c, |ports|, ports) == Ok(p)
    ensures PickFirst(c, |ports| + 1) == Picks(ports + [p], None)
  {
    hide ChooseAt, Choose, LowestFree;
  }

  /** Reserving overwrites exactly the granted slots. */
  lemma {:induction false} MarkAllMarks(t: Table, me: Instance, reqs: seq<Request>, ports: seq<Port>, expiry: int)
    requires |ports| <= |reqs|
    ensures var r := MarkAll(t, me, reqs, ports, expiry);
      && r.Keys == t.Keys + Granted(reqs, ports)
      && forall s :: s in r ==> r[s] == if s in Granted(reqs, ports) then Reservation(expiry, me) else t[s]
  {
    if ports != [] {
      var n := |ports| - 1;
      MarkAllMarks(t, me, reqs, ports[..n], expiry);
      GrantedGrows(reqs, ports[..n], ports[n]);
      assert ports == ports[..n] + [ports[n]];
    }
  }

  lemma GrantedGrows(reqs: seq<Request>, ports: seq<Port>, p: Port)
    requires |ports| < |reqs|
    ensures Granted(reqs, ports + [p]) == Granted(reqs, ports) + {Slot(reqs[|ports|].proto, p)}
  {
    var longer := ports + [p];
    forall s | s in Granted(reqs, ports) + {Slot(reqs[|ports|].proto, p)} ensures s in Granted(reqs, longer) {
      if s in Granted(reqs, ports) {
        var i :| 0 <= i < |ports| && s == Slot(reqs[i].proto, ports[i]);
        assert longer[i] == ports[i];
      } else {
        assert longer[|ports|] == p;
      }
    }
  }

  /** An error ends the call: later requests are not served. */
  lemma {:induction false} PickStopsAt(c: Call, n: nat)
    requires n <= |c.reqs| && PickFirst(c, n).error.Some?
    ensures Pick(c) == PickFirst(c, n)
    decreases |c.reqs| - n
  {
    if n < |c.reqs| {
      PickStopsAt(c, n + 1);
    }
  }

  // ---- What one call guarantees -------------------------------------------------

  /** Each granted port is what Choose gives against everything taken before it. */
  lemma {:induction false} PickedByChoose(c: Call, n: nat, i: nat)
    requires n <= |c.reqs| && i < |PickFirst(c, n).ports|
    ensures var ports := PickFirst(c, n).ports;
      PickFirst(c, i) == Picks(ports[..i], None) && ChooseAt(c, i, ports[..i]) == Ok(ports[i])
  {
    hide ChooseAt, Choose, LowestFree;
    var before := PickFirst(c, n - 1);
    var ports := PickFirst(c, n).ports;
    if i < |before.ports| {
      PickedByChoose(c, n - 1, i);
      assert ports[..i] == before.ports[..i];
    } else {
      assert ports[..i] == before.ports;
    }
  }

  /** Why a call failed: the first refused request. */
  lemma {:induction false} RefusedByChoose(c: Call, n: nat)
    requires n <= |c.reqs| && PickFirst(c, n).error.Some?
    ensures var r := PickFirst(c, n);
      |r.ports| < n && ChooseAt(c, |r.ports|, r.ports) == Err(r.error.value)
  {
    hide ChooseAt, Choose, LowestFree;
    if PickFirst(c, n - 1).error.Some? {
      RefusedByChoose(c, n - 1);
    }
  }

  /** No slot is handed out twice within a call, and none that somebody else has. */
  lemma PicksAreFresh(c: Call, i: nat)
    requires i < |Pick(c).ports|
    ensures var ports := Pick(c).ports;
      && Slot(c.reqs[i].proto, ports[i]) !in c.held
      && forall j :: 0 <= j < i && c.reqs[j].proto == c.reqs[i].proto ==> ports[j] != ports[i]
  {
    var ports := Pick(c).ports;
    PickedByChoose(c, |c.reqs|, i);
    assert Slot(c.reqs[i].proto, ports[i]) !in TakenAt(c, i);
    forall j | 0 <= j < i && c.reqs[j].proto == c.reqs[i].proto ensures ports[j] != ports[i] {
      assert ports[..i][j] == ports[j];
      assert Slot(c.reqs[j].proto, ports[j]) in Granted(c.reqs, ports[..i]);
    }
  }

  /** Stickiness, both ways: the remembered port comes back exactly when nothing holds it;
      otherwise the lowest untaken port of the range, and never for a proxy same_port endpoint. */
  lemma PicksAreSticky(c: Call, i: nat)
    requires i < |Pick(c).ports|
    ensures var req, p, prev := c.reqs[i], Pick(c).ports[i], Remembered(c.sticky, c.reqs[i].name);
      && (prev.Some? && Slot(req.proto, prev.value) !in TakenAt(c, i) ==> p == prev.value)
      && (prev.None? || Slot(req.proto, prev.value) in TakenAt(c, i) ==>
            IsLowestFree(c.lo, c.hi, PortsOf(TakenAt(c, i), req.proto), p))
      && (req.samePort && !c.tunnel && prev.Some? ==> p == prev.value)
  {
    PickedByChoose(c, |c.reqs|, i);
  }

  /** The two ways a call fails, each exactly when it must. */
  lemma FailureIsJustified(c: Call)
    requires Pick(c).error.Some?
    ensures var i := |Pick(c).ports|;
      && i < |c.reqs|
      && var req, prev := c.reqs[i], Remembered(c.sticky, c.reqs[i].name);
      match Pick(c).error.value
      case SamePortConflict(name, port) =>
        name == req.name && prev == Some(port) && req.samePort && !c.tunnel && Slot(req.proto, port) in TakenAt(c, i)
      case RangeExhausted(_, _) =>
        && (forall p :: c.lo <= p <= c.hi ==> Slot(req.proto, p) in TakenAt(c, i))
        && !(req.samePort && !c.tunnel && prev.Some?)
      case Unavailable => false
      case SaveFailed => false
  {
    RefusedByChoose(c, |c.reqs|);
    assert Pick(c).ports[..|Pick(c).ports|] == Pick(c).ports;
  }

  /** Every port a call grants from in-range memory lies in the range. */
  lemma PicksInRange(c: Call, i: nat)
    requires i < |Pick(c).ports|
    requires forall name :: name in c.sticky ==> c.lo <= c.sticky[name] <= c.hi
    ensures c.lo <= Pick(c).ports[i] <= c.hi
  {
    PickedByChoose(c, |c.reqs|, i);
  }

  // ---- Stickiness across calls ----------------------------------------------------

  ghost predicate DistinctNames(reqs: seq<Request>) {
    forall i, j :: 0 <= i < j < |reqs| ==> reqs[i].name != reqs[j].name
  }

  lemma {:induction false} NewStickyAt(reqs: seq<Request>, ports: seq<Port>, i: nat)
    requires i < |ports| <= |reqs| && DistinctNames(reqs)
    ensures Remembered(NewSticky(reqs, ports), reqs[i].name) == Some(ports[i])
  {
    if i < |ports| - 1 {
      NewStickyAt(reqs, ports[..|ports| - 1], i);
    }
  }

  /** A restart keeps the endpoint: after a successful call, asking again with what it remembered
      gives the same ports back, as long as nobody else has taken one of them meanwhile. */
  lemma RestartKeepsPorts(c: Call, again: Call)
    requires Pick(c).error.None? && again.reqs == c.reqs && DistinctNames(c.reqs)
    requires again.sticky == NewSticky(c.reqs, Pick(c).ports)
    requires again.held !! Granted(c.reqs, Pick(c).ports)
    ensures Pick(again) == Pick(c)
  {
    RestartKeepsFirst(c, again, |c.reqs|);
    assert Pick(c).ports[..|c.reqs|] == Pick(c).ports;
  }

  /** A remembered port that is not taken is chosen. */
  lemma StickyIsChosen(c: Call, i: nat, before: seq<Port>, port: Port)
    requires |before| <= i < |c.reqs| && Remembered(c.sticky, c.reqs[i].name) == Some(port)
    requires Slot(c.reqs[i].proto, port) !in c.held && Slot(c.reqs[i].proto, port) !in Granted(c.reqs, before)
    ensures ChooseAt(c, i, before) == Ok(port)
  {
    hide Granted, Remembered, LowestFree, PortsOf;
  }

  /** A request's slot is among the granted ones, and not among those granted before it. */
  lemma GrantedAt(c: Call, i: nat)
    requires i < |Pick(c).ports|
    ensures var slot := Slot(c.reqs[i].proto, Pick(c).ports[i]);
      slot in Granted(c.reqs, Pick(c).ports) && slot !in Granted(c.reqs, Pick(c).ports[..i])
  {
    hide Pick;
    PicksAreFresh(c, i);
  }

  lemma {:induction false} RestartKeepsFirst(c: Call, again: Call, n: nat)
    requires Pick(c).error.None? && again.reqs == c.reqs && DistinctNames(c.reqs) && n <= |c.reqs|
    requires again.sticky == NewSticky(c.reqs, Pick(c).ports)
    requires again.held !! Granted(c.reqs, Pick(c).ports)
    ensures PickFirst(again, n) == Picks(Pick(c).ports[..n], None)
  {
    hide LowestFree, PortsOf, DistinctNames, NewSticky, Pick, Granted, ChooseAt, Choose;
    if n > 0 {
      var ports := Pick(c).ports;
      RestartKeepsFirst(c, again, n - 1);
      NewStickyAt(c.reqs, ports, n - 1);
      GrantedAt(c, n - 1);
      StickyIsChosen(again, n - 1, ports[..n - 1], ports[n - 1]);
      PickFirstGrows(again, ports[..n - 1], ports[n - 1]);
      assert ports[..n] == ports[..n - 1] + [ports[n - 1]];
    }
  }
}
