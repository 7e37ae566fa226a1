/**
 The lock operations of InstanceLock are the steps of LockProtocol: a program
 state that follows a protocol state still follows it after each operation.
 */
module LockRefinement {
  import opened InstanceLock
  import opened LockProtocol

  /** Nobody can tell the two apart from now on; an expired entry may or may not have been swept. */
  ghost predicate SameHandoffs(h: Handoffs, h': Handoffs, now: int) {
    forall id, t :: t >= now ==> (Reserved(h, id, t) <==> Reserved(h', id, t))
  }

  /** The module's state and the one-shot releases of the jobs are those of s. */
  ghost predicate Follows(locks: Locks, shots: map<nat, OneShot>, s: State)
    reads locks, shots.Values
  {
    && locks.locked == s.locked && SameHandoffs(locks.handoff, s.handoff, s.now)
    && (forall a :: a in s.agents && IsJob(s.agents[a].pc) ==> a in shots)
    && (forall a :: a in shots ==> a in s.agents && IsShotOf(locks, shots[a], s.agents[a]))
    && (forall a, b :: a in shots && b in shots && a != b ==> shots[a] != shots[b])
  }

  ghost predicate IsShotOf(locks: Locks, shot: OneShot, agent: Agent)
    reads shot
  {
    && (IsJob(agent.pc) || agent.pc.Done?)
    && shot.locks == locks && shot.id == agent.id && shot.held == agent.held
  }

  /** Whoever asks for a lock. */
  predicate Asks(act: Action) {
    act.ControlAcquire? || act.SpawnAcquire? || act.RenewAcquire?
  }

  lemma SweepingIsInvisible(h: Handoffs, h': Handoffs, id: Instance, now: int)
    requires SameHandoffs(h, h', now)
    ensures SameHandoffs(Swept(h, id, now), h', now) && SameHandoffs(Swept(h, id, now), Swept(h', id, now), now)
  {
  }

  lemma UpdatesAgreeAt(h: Handoffs, h': Handoffs, id: Instance, deadline: int, i: Instance, t: int)
    requires Reserved(h, i, t) <==> Reserved(h', i, t)
    ensures Reserved(h[id := deadline], i, t) <==> Reserved(h'[id := deadline], i, t)
    ensures Reserved(h - {id}, i, t) <==> Reserved(h' - {id}, i, t)
  {
  }

  lemma UpdatesAgree(h: Handoffs, h': Handoffs, id: Instance, deadline: int, now: int)
    requires SameHandoffs(h, h', now)
    ensures SameHandoffs(h[id := deadline], h'[id := deadline], now) && SameHandoffs(h - {id}, h' - {id}, now)
  {
    hide Reserved;
    var g, g' := h[id := deadline], h'[id := deadline];
    forall i, t | t >= now ensures Reserved(g, i, t) <==> Reserved(g', i, t) {
      UpdatesAgreeAt(h, h', id, deadline, i, t);
    }
    var f, f' := h - {id}, h' - {id};
    forall i, t | t >= now ensures Reserved(f, i, t) <==> Reserved(f', i, t) {
      UpdatesAgreeAt(h, h', id, deadline, i, t);
    }
  }

  lemma LaterIsFewer(h: Handoffs, h': Handoffs, now: int, d: nat)
    requires SameHandoffs(h, h', now)
    ensures SameHandoffs(h, h', now + d)
  {
  }

  /** An agent inside its section holds a lock that is there to be freed. */
  lemma HeldIsLocked(s: State, a: nat)
    requires Inv(s) && a in s.agents && s.agents[a].held
    ensures s.agents[a].id in s.locked
  {
    InsideIffHeld(s, a);
  }

  lemma InsideIsHeld(s: State, a: nat)
    requires Inv(s) && (At(s, a, ControlBody) || At(s, a, RenewBody))
    ensures s.agents[a].held
  {
    assert AgentOk(s.agents[a]);
  }

  /** _serialize_instance_op and spawn_backup / spawn_restore at their acquire. */
  method Acquire(locks: Locks, shots: map<nat, OneShot>, s: State, act: Action)
    returns (taken: bool, shots': map<nat, OneShot>)
    requires Follows(locks, shots, s) && (act.ControlAcquire? || act.SpawnAcquire?) && act.a !in s.agents
    modifies locks`locked
    ensures taken <==> Enabled(s, act)
    ensures Follows(locks, shots', if taken then Step(s, act) else s)
    ensures fresh(shots'.Values - shots.Values)
  {
    hide SameHandoffs;
    shots' := shots;
    taken := locks.TryAcquire(act.id);
    if taken && act.SpawnAcquire? {
      var shot := new OneShot(locks, act.id);
      shots' := shots[act.a := shot];
    }
  }

  /** A renewal at its acquire; a refused one may sweep, which nobody sees. */
  method AcquireToRenew(locks: Locks, shots: map<nat, OneShot>, s: State, act: Action) returns (taken: bool)
    requires Follows(locks, shots, s) && act.RenewAcquire? && act.a !in s.agents
    modifies locks`locked, locks`handoff
    ensures taken <==> Enabled(s, act)
    ensures Follows(locks, shots, if taken then Step(s, act) else s)
  {
    SweepingIsInvisible(locks.handoff, s.handoff, act.id, s.now);
    assert Reserved(locks.handoff, act.id, s.now) <==> Reserved(s.handoff, act.id, s.now);
    hide SameHandoffs, Swept, Reserved;
    var refusal := locks.AcquireUnlessHandoff(act.id, s.now);
    taken := refusal.None?;
  }

  /** The end of a control operation or a renewal. */
  method Free(locks: Locks, shots: map<nat, OneShot>, s: State, act: Action)
    requires Inv(s) && Follows(locks, shots, s) && (act.ControlRelease? || act.RenewRelease?) && Enabled(s, act)
    modifies locks`locked
    ensures Follows(locks, shots, Step(s, act))
  {
    hide SameHandoffs;
    InsideIsHeld(s, act.a);
    HeldIsLocked(s, act.a);
    locks.Release(s.agents[act.a].id);
  }

  /** A job's release, wherever it comes from. */
  method FreeShot(locks: Locks, shots: map<nat, OneShot>, s: State, act: Action)
    requires Inv(s) && Follows(locks, shots, s) && Enabled(s, act)
    requires act.ThreadFails? || act.EarlyRelease? || act.FinallyRelease?
    modifies locks`locked, shots.Values
    ensures Follows(locks, shots, Step(s, act))
  {
    hide SameHandoffs;
    var shot := shots[act.a];
    if s.agents[act.a].held {
      HeldIsLocked(s, act.a);
    }
    shot.Release();
  }

  /** A control operation consumes the reservation, a restore makes one. */
  method Hand(locks: Locks, shots: map<nat, OneShot>, s: State, act: Action)
    requires Follows(locks, shots, s) && (act.ControlClear? || act.Reserve?) && Enabled(s, act)
    modifies locks`handoff
    ensures Follows(locks, shots, Step(s, act))
  {
    var id := s.agents[act.a].id;
    UpdatesAgree(locks.handoff, s.handoff, id, s.now + HANDOFF_WINDOW_SECONDS, s.now);
    hide SameHandoffs;
    if act.ControlClear? {
      locks.ClearHandoff(id);
    } else {
      locks.ReserveHandoff(id, s.now);
    }
  }

  /** The steps that touch no lock. */
  lemma Pass(locks: Locks, shots: map<nat, OneShot>, s: State, act: Action)
    requires Follows(locks, shots, s) && (act.Tick? || act.ThreadStarts? || act.Leave?) && Enabled(s, act)
    ensures Follows(locks, shots, Step(s, act))
  {
    if act.Tick? {
      LaterIsFewer(locks.handoff, s.handoff, s.now, act.d);
    }
    hide SameHandoffs;
  }

  /** What the protocol makes of an operation: its step, or nothing when a lock is refused. */
  ghost function Next(s: State, act: Action): State {
    if Enabled(s, act) then Step(s, act) else s
  }

  /** A program order: only an acquire may be refused, and an agent asks once. */
  ghost predicate Sensible(s: State, acts: seq<Action>)
    decreases acts
  {
    acts == [] ||
    ((if Asks(acts[0]) then acts[0].a !in s.agents else Enabled(s, acts[0])) && Sensible(Next(s, acts[0]), acts[1..]))
  }

  /** The steps that were taken. */
  ghost function Taken(s: State, acts: seq<Action>): seq<Action>
    decreases acts
  {
    if acts == [] then []
    else if Enabled(s, acts[0]) then [acts[0]] + Taken(Next(s, acts[0]), acts[1..])
    else Taken(s, acts[1..])
  }

  ghost function Through(s: State, acts: seq<Action>): State
    decreases acts
  {
    if acts == [] then s else Through(Next(s, acts[0]), acts[1..])
  }

  lemma {:induction false} TakenIsRun(s: State, acts: seq<Action>)
    ensures IsRun(s, Taken(s, acts)) && Exec(s, Taken(s, acts)) == Through(s, acts)
    decreases acts
  {
    hide Enabled, Step;
    if acts != [] {
      TakenIsRun(Next(s, acts[0]), acts[1..]);
      if Enabled(s, acts[0]) {
        assert Taken(s, acts)[1..] == Taken(Next(s, acts[0]), acts[1..]);
      }
    }
  }

  /** Any operation of the module, from any state that follows a reachable one: an acquire succeeds exactly when the
      protocol takes the step, and either way the two still agree. Whatever is proved of every run of the protocol
      holds of the module. */
  method Perform(locks: Locks, shots: map<nat, OneShot>, s: State, act: Action)
    returns (taken: bool, shots': map<nat, OneShot>)
    requires Inv(s) && Follows(locks, shots, s)
    requires if Asks(act) then act.a !in s.agents else Enabled(s, act)
    modifies locks, shots.Values
    ensures taken <==> Enabled(s, act)
    ensures Follows(locks, shots', Next(s, act)) && Inv(Next(s, act))
    ensures fresh(shots'.Values - shots.Values)
  {
    hide Inv, Step, SameHandoffs, Enabled;
    taken, shots' := true, shots;
    if Enabled(s, act) {
      StepKeepsInv(s, act);
    }
    match act {
      case Tick(_) => Pass(locks, shots, s, act);
      case ControlAcquire(_, _) => taken, shots' := Acquire(locks, shots, s, act);
      case SpawnAcquire(_, _) => taken, shots' := Acquire(locks, shots, s, act);
      case RenewAcquire(_, _) => taken := AcquireToRenew(locks, shots, s, act);
      case ControlClear(_) => Hand(locks, shots, s, act);
      case Reserve(_) => Hand(locks, shots, s, act);
      case ControlRelease(_) => Free(locks, shots, s, act);
      case RenewRelease(_) => Free(locks, shots, s, act);
      case ThreadFails(_) => FreeShot(locks, shots, s, act);
      case EarlyRelease(_) => FreeShot(locks, shots, s, act);
      case FinallyRelease(_) => FreeShot(locks, shots, s, act);
      case ThreadStarts(_) => Pass(locks, shots, s, act);
      case Leave(_) => Pass(locks, shots, s, act);
    }
  }

  /** Any sequence of operations on a new module: its locks are those of a run of the protocol, so everything proved
      of every run, mutual exclusion first, holds of it. */
  method RunProgram(acts: seq<Action>, s0: State) returns (locks: Locks, ran: seq<Action>)
    requires Init(s0) && Sensible(s0, acts)
    ensures ran == Taken(s0, acts) && IsRun(s0, ran) && locks.locked == Exec(s0, ran).locked
    ensures SameHandoffs(locks.handoff, Exec(s0, ran).handoff, Exec(s0, ran).now)
  {
    hide Step, Enabled, SameHandoffs, Inv;
    InitIsFollowed(s0);
    locks := new Locks();
    ran := [];
    var shots: map<nat, OneShot> := map[];
    var s := s0;
    assert acts[0..] == acts;
    for i := 0 to |acts|
      invariant fresh(locks) && fresh(shots.Values) && Inv(s) && Follows(locks, shots, s)
      invariant Sensible(s, acts[i..]) && Through(s0, acts) == Through(s, acts[i..])
      invariant Taken(s0, acts) == ran + Taken(s, acts[i..])
    {
      assert acts[i..][0] == acts[i] && acts[i..][1..] == acts[i + 1..];
      var taken, shots' := Perform(locks, shots, s, acts[i]);
      if taken {
        TakenGrows(ran, acts[i], Taken(Step(s, acts[i]), acts[i + 1..]));
        s, ran := Step(s, acts[i]), ran + [acts[i]];
      }
      shots := shots';
    }
    assert Taken(s, acts[|acts|..]) == [] && ran + [] == ran;
    TakenIsRun(s0, acts);
  }

  lemma TakenGrows(ran: seq<Action>, act: Action, rest: seq<Action>)
    ensures ran + ([act] + rest) == (ran + [act]) + rest
  {
  }

  lemma InitIsFollowed(s: State)
    requires Init(s)
    ensures Inv(s) && SameHandoffs(map[], s.handoff, s.now)
  {
  }
}
