/**
 Every interleaving of control operations, backup and restore jobs and renewals
 over the per-instance locks. Each action is one atomic step of the program: a
 lock operation, a section under the handoff guard, or a step of a job.
 */
module LockProtocol {
  import opened InstanceLock

  /** Where an agent is. */
  datatype Pc =
    | ControlLocked   // _serialize_instance_op has the lock and has not cleared the handoff yet
    | ControlBody     // the start / stop / decommission handler runs
    | JobSpawned      // spawn_backup / spawn_restore has the lock; the thread does not run yet
    | JobBody         // the job runs
    | JobReserved     // the restore has reserved the handoff
    | JobCallback     // the early release is behind it; the callback is being posted
    | JobFinally      // the job returned or raised; _locked_job's finally is next
    | RenewBody       // a renewal got the lock
    | Done

  /** `held` is the one-shot flag of a job's acquisition; `freed` counts the releases that freed the lock. */
  datatype Agent = Agent(id: Instance, pc: Pc, held: bool, freed: nat)

  datatype State = State(now: int, locked: set<Instance>, handoff: Handoffs, agents: map<nat, Agent>)

  datatype Action =
    | Tick(d: nat)
    | ControlAcquire(a: nat, id: Instance)
    | ControlClear(a: nat)
    | ControlRelease(a: nat)        // the handler returned or raised
    | SpawnAcquire(a: nat, id: Instance)
    | ThreadFails(a: nat)           // Thread.start() raised
    | ThreadStarts(a: nat)
    | Reserve(a: nat)
    | EarlyRelease(a: nat)
    | Leave(a: nat)                 // the job returns or raises, wherever it is
    | FinallyRelease(a: nat)
    | RenewAcquire(a: nat, id: Instance)
    | RenewRelease(a: nat)

  ghost predicate At(s: State, a: nat, pc: Pc) {
    a in s.agents && s.agents[a].pc == pc
  }

  predicate IsJob(pc: Pc) {
    pc in {JobSpawned, JobBody, JobReserved, JobCallback, JobFinally}
  }

  /** When the program takes the step; a refused acquire changes nothing and is not a step. */
  ghost predicate Enabled(s: State, act: Action) {
    match act
    case Tick(_) => true
    case ControlAcquire(a, id) => a !in s.agents && id !in s.locked
    case ControlClear(a) => At(s, a, ControlLocked)
    case ControlRelease(a) => At(s, a, ControlBody)
    case SpawnAcquire(a, id) => a !in s.agents && id !in s.locked
    case ThreadFails(a) => At(s, a, JobSpawned)
    case ThreadStarts(a) => At(s, a, JobSpawned)
    case Reserve(a) => At(s, a, JobBody)
    case EarlyRelease(a) => At(s, a, JobBody) || At(s, a, JobReserved)
    case Leave(a) => At(s, a, JobBody) || At(s, a, JobReserved) || At(s, a, JobCallback)
    case FinallyRelease(a) => At(s, a, JobFinally)
    case RenewAcquire(a, id) => a !in s.agents && !Reserved(s.handoff, id, s.now) && id !in s.locked
    case RenewRelease(a) => At(s, a, RenewBody)
  }

  function Enter(s: State, a: nat, id: Instance, pc: Pc): State {
    s.(locked := s.locked + {id}, agents := s.agents[a := Agent(id, pc, true, 0)])
  }

  function Move(s: State, a: nat, pc: Pc): State
    requires a in s.agents
  {
    s.(agents := s.agents[a := s.agents[a].(pc := pc)])
  }

  /** lock.release() on an agent's own instance. */
  function Free(s: State, a: nat, pc: Pc): State
    requires a in s.agents
  {
    var ag := s.agents[a];
    s.(locked := s.locked - {ag.id}, agents := s.agents[a := Agent(ag.id, pc, false, ag.freed + 1)])
  }

  /** The one-shot release: OneShot.Release. */
  function FreeOnce(s: State, a: nat, pc: Pc): State
    requires a in s.agents
  {
    if s.agents[a].held then Free(s, a, pc) else Move(s, a, pc)
  }

  function Step(s: State, act: Action): State
    requires Enabled(s, act)
  {
    match act
    case Tick(d) => s.(now := s.now + d)
    case ControlAcquire(a, id) => Enter(s, a, id, ControlLocked)
    case ControlClear(a) => Move(s, a, ControlBody).(handoff := s.handoff - {s.agents[a].id})
    case ControlRelease(a) => Free(s, a, Done)
    case SpawnAcquire(a, id) => Enter(s, a, id, JobSpawned)
    case ThreadFails(a) => FreeOnce(s, a, Done)
    case ThreadStarts(a) => Move(s, a, JobBody)
    case Reserve(a) =>
      Move(s, a, JobReserved).(handoff := s.handoff[s.agents[a].id := s.now + HANDOFF_WINDOW_SECONDS])
    case EarlyRelease(a) => FreeOnce(s, a, JobCallback)
    case Leave(a) => Move(s, a, JobFinally)
    case FinallyRelease(a) => FreeOnce(s, a, Done)
    case RenewAcquire(a, id) => Enter(s, a, id, RenewBody).(handoff := Swept(s.handoff, id, s.now))
    case RenewRelease(a) => Free(s, a, Done)
  }

  ghost predicate IsRun(s: State, acts: seq<Action>)
    decreases acts
  {
    acts == [] || (Enabled(s, acts[0]) && IsRun(Step(s, acts[0]), acts[1..]))
  }

  ghost function Exec(s: State, acts: seq<Action>): State
    requires IsRun(s, acts)
    decreases acts
  {
    if acts == [] then s else Exec(Step(s, acts[0]), acts[1..])
  }

  ghost predicate Init(s: State) {
    s.locked == {} && s.handoff == map[] && s.agents == map[]
  }

  // ---- Mutual exclusion ------------------------------------------------------------

  /** Agent a is between its acquire and its release, so inside the section for `id`. */
  ghost predicate Inside(s: State, a: nat, id: Instance) {
    && a in s.agents && s.agents[a].id == id
    && (s.agents[a].pc in {ControlLocked, ControlBody, RenewBody} || (IsJob(s.agents[a].pc) && s.agents[a].held))
  }

  /** The flag follows the program order, and a release has freed the lock once exactly when the agent is out. */
  predicate AgentOk(ag: Agent) {
    && (ag.pc in {JobSpawned, JobBody, JobReserved, ControlLocked, ControlBody, RenewBody} ==> ag.held)
    && (ag.pc in {JobCallback, Done} ==> !ag.held)
    && ag.freed == (if ag.held then 0 else 1)
  }

  ghost predicate Inv(s: State) {
    && (forall a :: a in s.agents ==> AgentOk(s.agents[a]))
    && (forall a, id :: Inside(s, a, id) ==> id in s.locked)
    && (forall a, b, id :: Inside(s, a, id) && Inside(s, b, id) ==> a == b)
    && (forall id :: id in s.locked ==> exists a :: Inside(s, a, id))
  }

  lemma InsideIffHeld(s: State, a: nat)
    requires a in s.agents && AgentOk(s.agents[a])
    ensures Inside(s, a, s.agents[a].id) <==> s.agents[a].held
  {
    match s.agents[a].pc
    case ControlLocked => case ControlBody => case RenewBody => case JobSpawned => case JobBody =>
    case JobReserved => case JobCallback => case JobFinally => case Done =>
  }

  /** The agent whose step a release is. */
  predicate IsRelease(act: Action) {
    act.ControlRelease? || act.RenewRelease? || act.ThreadFails? || act.EarlyRelease? || act.FinallyRelease?
  }

  /** What a release does in a reachable state: nothing when the flag is already down, and otherwise it
      frees a lock that is locked (no RuntimeError) and that this very agent, and nobody else, is inside. */
  lemma ReleaseFreesOwnLockOnly(s: State, act: Action)
    requires Inv(s) && Enabled(s, act) && IsRelease(act)
    ensures var a, id := act.a, s.agents[act.a].id;
      && (!s.agents[a].held ==> Step(s, act).locked == s.locked)
      && (s.agents[a].held ==>
           id in s.locked && Inside(s, a, id) && Step(s, act).locked == s.locked - {id}
           && forall b :: Inside(s, b, id) ==> b == a)
  {
    assert AgentOk(s.agents[act.a]);
    InsideIffHeld(s, act.a);
  }

  lemma EnterKeepsInv(s: State, a: nat, id: Instance, pc: Pc)
    requires Inv(s) && a !in s.agents && id !in s.locked && pc in {ControlLocked, JobSpawned, RenewBody}
    ensures Inv(Enter(s, a, id, pc))
  {
    var s' := Enter(s, a, id, pc);
    forall i | i in s'.locked ensures exists b :: Inside(s', b, i) {
      if i == id {
        assert Inside(s', a, id);
      } else {
        var b :| Inside(s, b, i);
        assert Inside(s', b, i);
      }
    }
    forall b, i | Inside(s', b, i) && b != a ensures Inside(s, b, i) {
    }
  }

  lemma MoveKeepsInv(s: State, a: nat, pc: Pc)
    requires Inv(s) && a in s.agents && AgentOk(s.agents[a].(pc := pc))
    requires forall id :: Inside(Move(s, a, pc), a, id) <==> Inside(s, a, id)
    ensures Inv(Move(s, a, pc))
  {
    var s' := Move(s, a, pc);
    assert forall b, id :: Inside(s', b, id) <==> Inside(s, b, id);
  }

  lemma FreeKeepsInv(s: State, a: nat, pc: Pc)
    requires Inv(s) && a in s.agents && Inside(s, a, s.agents[a].id) && s.agents[a].held
    requires pc in {Done, JobCallback}
    ensures Inv(Free(s, a, pc))
  {
    var s' := Free(s, a, pc);
    assert forall b, id :: Inside(s', b, id) <==> Inside(s, b, id) && b != a;
    forall i | i in s'.locked ensures exists b :: Inside(s', b, i) {
      var b :| Inside(s, b, i);
      assert Inside(s', b, i);
    }
  }

  lemma HandoffIsIrrelevant(s: State, h: Handoffs, now: int)
    requires Inv(s)
    ensures Inv(s.(handoff := h)) && Inv(s.(now := now))
  {
    var s1, s2 := s.(handoff := h), s.(now := now);
    assert forall b, id :: (Inside(s1, b, id) <==> Inside(s, b, id)) && (Inside(s2, b, id) <==> Inside(s, b, id));
  }

  lemma StepKeepsInv(s: State, act: Action)
    requires Inv(s) && Enabled(s, act)
    ensures Inv(Step(s, act))
  {
    var s' := Step(s, act);
    match act
    case Tick(d) => HandoffIsIrrelevant(s, s.handoff, s.now + d);
    case ControlAcquire(a, id) => EnterKeepsInv(s, a, id, ControlLocked);
    case SpawnAcquire(a, id) => EnterKeepsInv(s, a, id, JobSpawned);
    case RenewAcquire(a, id) =>
      EnterKeepsInv(s, a, id, RenewBody);
      HandoffIsIrrelevant(Enter(s, a, id, RenewBody), s'.handoff, s.now);
    case ControlClear(a) =>
      MoveKeepsInv(s, a, ControlBody);
      HandoffIsIrrelevant(Move(s, a, ControlBody), s'.handoff, s.now);
    case Reserve(a) =>
      MoveKeepsInv(s, a, JobReserved);
      HandoffIsIrrelevant(Move(s, a, JobReserved), s'.handoff, s.now);
    case ThreadStarts(a) => MoveKeepsInv(s, a, JobBody);
    case Leave(a) => MoveKeepsInv(s, a, JobFinally);
    case ControlRelease(a) => FreeKeepsInv(s, a, Done);
    case RenewRelease(a) => FreeKeepsInv(s, a, Done);
    case ThreadFails(a) => FreeKeepsInv(s, a, Done);
    case EarlyRelease(a) => FreeKeepsInv(s, a, JobCallback);
    case FinallyRelease(a) =>
      if s.agents[a].held {
        FreeKeepsInv(s, a, Done);
      } else {
        MoveKeepsInv(s, a, Done);
      }
  }

  /** In every interleaving at most one agent is inside an instance's section, the lock is locked exactly
      while one is, and each acquisition is freed once: not yet while inside, and once when out. */
  lemma {:induction false} MutualExclusion(s: State, acts: seq<Action>)
    requires Inv(s) && IsRun(s, acts)
    ensures var s' := Exec(s, acts);
      && Inv(s')
      && (forall a, b, id :: Inside(s', a, id) && Inside(s', b, id) ==> a == b)
      && (forall id :: id in s'.locked <==> exists a :: Inside(s', a, id))
      && (forall a, id :: a in s'.agents && s'.agents[a].id == id ==>
            s'.agents[a].freed == (if Inside(s', a, id) then 0 else 1))
    decreases acts
  {
    if acts == [] {
      forall a | a in s.agents
        ensures s.agents[a].freed == (if Inside(s, a, s.agents[a].id) then 0 else 1)
      {
        assert AgentOk(s.agents[a]);
        InsideIffHeld(s, a);
      }
    } else {
      StepKeepsInv(s, acts[0]);
      MutualExclusion(Step(s, acts[0]), acts[1..]);
    }
  }

  /** No exit leaves a lock stranded: when every agent is done, every lock is free. */
  lemma NothingStranded(s: State, acts: seq<Action>)
    requires Init(s) && IsRun(s, acts)
    requires forall a :: a in Exec(s, acts).agents ==> Exec(s, acts).agents[a].pc == Done
    ensures Exec(s, acts).locked == {}
    ensures forall a :: a in Exec(s, acts).agents ==> Exec(s, acts).agents[a].freed == 1
  {
    MutualExclusion(s, acts);
    var s' := Exec(s, acts);
    forall id ensures id !in s'.locked {
      assert forall a :: !Inside(s', a, id);
    }
  }

  // ---- The handoff -------------------------------------------------------------------

  /** The reservation for `id` stands until `deadline`, and no control operation is about to consume it. */
  ghost predicate Standing(s: State, id: Instance, deadline: int) {
    && id in s.handoff && deadline <= s.handoff[id]
    && forall a :: a in s.agents && s.agents[a].id == id ==> s.agents[a].pc != ControlLocked
  }

  /** A restore reserves while it is inside, so no control operation is between acquire and clear. */
  lemma ReserveStands(s: State, a: nat)
    requires Inv(s) && Enabled(s, Reserve(a))
    ensures Standing(Step(s, Reserve(a)), s.agents[a].id, s.now + HANDOFF_WINDOW_SECONDS)
  {
    var id := s.agents[a].id;
    assert Inside(s, a, id);
    forall b | b in s.agents && s.agents[b].id == id ensures s.agents[b].pc != ControlLocked || b == a {
      assert s.agents[b].pc == ControlLocked ==> Inside(s, b, id);
    }
  }

  lemma StepKeepsStanding(s: State, act: Action, id: Instance, deadline: int)
    requires Standing(s, id, deadline) && Enabled(s, act) && s.now < deadline <= s.now + HANDOFF_WINDOW_SECONDS
    requires !(act.ControlAcquire? && act.id == id)
    ensures Standing(Step(s, act), id, deadline)
    ensures !(act.RenewAcquire? && act.id == id)
  {
  }

  ghost predicate AcquiredByControl(acts: seq<Action>, id: Instance) {
    exists i :: 0 <= i < |acts| && acts[i].ControlAcquire? && acts[i].id == id
  }

  ghost predicate AcquiredByRenewal(acts: seq<Action>, id: Instance) {
    exists i :: 0 <= i < |acts| && acts[i].RenewAcquire? && acts[i].id == id
  }

  lemma {:induction false} ClockAdvances(s: State, acts: seq<Action>)
    requires IsRun(s, acts)
    ensures s.now <= Exec(s, acts).now
    decreases acts
  {
    if acts != [] {
      ClockAdvances(Step(s, acts[0]), acts[1..]);
    }
  }

  lemma {:induction false} NoRenewalWhileStanding(s: State, acts: seq<Action>, id: Instance, deadline: int)
    requires IsRun(s, acts) && Standing(s, id, deadline) && deadline <= s.now + HANDOFF_WINDOW_SECONDS
    requires Exec(s, acts).now < deadline && !AcquiredByControl(acts, id)
    ensures !AcquiredByRenewal(acts, id) && Standing(Exec(s, acts), id, deadline)
    decreases acts
  {
    if acts != [] {
      ClockAdvances(s, acts);
      var s', rest := Step(s, acts[0]), acts[1..];
      StepKeepsStanding(s, acts[0], id, deadline);
      forall i | 0 <= i < |rest| ensures rest[i] == acts[i + 1] {
      }
      assert !AcquiredByControl(rest, id);
      NoRenewalWhileStanding(s', rest, id, deadline);
      forall i | 0 <= i < |acts| ensures !(acts[i].RenewAcquire? && acts[i].id == id) {
        if i > 0 {
          assert acts[i] == rest[i - 1];
        }
      }
    }
  }

  /** Once a restore has reserved the handoff, in every continuation of every run: no renewal acquires
      that instance's lock before a start, stop or decommission has acquired it, or 90 seconds have passed. */
  lemma HandoffKeepsRenewalOut(s: State, before: seq<Action>, a: nat, after: seq<Action>)
    requires Init(s) && IsRun(s, before) && Enabled(Exec(s, before), Reserve(a))
    requires var r := Step(Exec(s, before), Reserve(a)); IsRun(r, after)
    ensures var r := Step(Exec(s, before), Reserve(a)); var id := r.agents[a].id;
      AcquiredByRenewal(after, id) ==>
        AcquiredByControl(after, id) || r.now + HANDOFF_WINDOW_SECONDS <= Exec(r, after).now
  {
    MutualExclusion(s, before);
    var t := Exec(s, before);
    ReserveStands(t, a);
    var r := Step(t, Reserve(a));
    var id, deadline := r.agents[a].id, r.now + HANDOFF_WINDOW_SECONDS;
    if !AcquiredByControl(after, id) && Exec(r, after).now < deadline {
      NoRenewalWhileStanding(r, after, id, deadline);
    }
  }

  /** A reservation that nobody consumes cannot mute renewal: once its deadline has passed and the lock is
      free, a renewal acquires it. */
  lemma ExpiredHandoffAdmitsRenewal(s: State, a: nat, id: Instance)
    requires a !in s.agents && id !in s.locked && id in s.handoff && s.handoff[id] <= s.now
    ensures Enabled(s, RenewAcquire(a, id)) && id !in Step(s, RenewAcquire(a, id)).handoff
  {
  }
}
