/**
 Backup: the cold one, which stops the instance and must bring it back whatever
 happens, and the hot one, which must not miss a volume or a database.
 */
module Backup {
  import opened Values
  import opened Mounts

  type Service = string
  type SnapshotId = string

  /** A backup-result body; `manifest` names each artifact's snapshot. */
  datatype Payload = Payload(success: bool, code: string, snapshot: SnapshotId, bytes: Option<int>,
                             manifest: map<string, SnapshotId>)

  function Failure(code: string): Payload {
    Payload(false, code, "", None, map[])
  }

  datatype Step = Fine | Refused(code: string) | Broke
  datatype Wait = Settles | TimesOut | WaitBroke
  datatype Restart = Starts | StartsNothing | RestartBroke

  datatype Run =
    | Up
    | Down
    | Unknown     // no containers, or some running and some not
    | Unsettled   // a stop was issued and not seen to finish

  datatype World = World(
    run: Run,
    marker: bool,   // the .backup_inprogress file
    owed: bool,     // this job stopped the instance and has not tried to start it
    locked: bool,
    sent: seq<Payload>)

  datatype Event =
    | Marked(written: bool)
    | StopIssued
    | Settled
    | Snapshotted(mounts: seq<Volume>, id: SnapshotId)
    | Dumped(service: Service, id: SnapshotId, bytes: int)
    | RestartTried(outcome: Restart)
    | Unmarked
    | Forgot
    | Released
    | Called(payload: Payload)

  function Apply(w: World, e: Event): World {
    match e
    case Marked(written) => w.(marker := w.marker || written)
    case StopIssued => w.(run := Unsettled, owed := true)
    case Settled => w.(run := Down)
    case Snapshotted(_, _) => w
    case Dumped(_, _, _) => w
    case RestartTried(outcome) => w.(owed := false, run := if outcome.Starts? && !w.run.Unsettled? then Up else w.run)
    case Unmarked => w.(marker := false)
    case Forgot => w
    case Released => w.(locked := false)
    case Called(payload) => w.(sent := w.sent + [payload])
  }

  function After(start: World, log: seq<Event>): World {
    if log == [] then start else Apply(After(start, log[..|log| - 1]), log[|log| - 1])
  }

  // ---- The rules -------------------------------------------------------------------------

  predicate Entry(start: World) {
    start.locked && start.sent == [] && !start.owed && !start.marker && !start.run.Unsettled?
  }

  /** A hot backup never touches the containers; a cold one never reads a volume that may be written; whoever
      stopped the instance tries to start it before it lets go of the marker or the lock. */
  predicate Legal(hot: bool, w: World, e: Event) {
    match e
    case Marked(_) => w.locked && !hot
    case StopIssued => w.locked && !hot && w.run.Up?
    case Settled => w.locked && w.run.Unsettled?
    case Snapshotted(_, _) => w.locked && (hot || w.run.Down?)
    case Dumped(_, _, _) => w.locked && hot
    case RestartTried(_) => w.locked && !hot && w.owed
    case Unmarked => w.locked && !w.owed
    case Forgot => w.locked && !w.owed
    case Released => w.locked && !w.owed
    case Called(_) => !w.locked && w.sent == []
  }

  predicate Proper(start: World, hot: bool, log: seq<Event>) {
    log == [] ||
    (var before := log[..|log| - 1];
     Proper(start, hot, before) && Legal(hot, After(start, before), log[|log| - 1]))
  }

  /** If the process stops here: an instance found running runs, or the marker is there for the next boot. */
  predicate Guarded(start: World, w: World) {
    start.run.Up? ==> w.run.Up? || w.marker
  }

  predicate GuardedThroughout(start: World, log: seq<Event>) {
    Guarded(start, After(start, log)) && (log == [] || GuardedThroughout(start, log[..|log| - 1]))
  }

  /** Nothing was stored. */
  predicate NoArtifacts(log: seq<Event>) {
    log == [] || (var e := log[|log| - 1]; !e.Snapshotted? && !e.Dumped? && NoArtifacts(log[..|log| - 1]))
  }

  lemma LogGrows(start: World, hot: bool, log: seq<Event>, e: Event)
    ensures After(start, log + [e]) == Apply(After(start, log), e)
    ensures Proper(start, hot, log + [e]) <==> Proper(start, hot, log) && Legal(hot, After(start, log), e)
    ensures GuardedThroughout(start, log + [e])
      <==> GuardedThroughout(start, log) && Guarded(start, Apply(After(start, log), e))
    ensures NoArtifacts(log + [e]) <==> NoArtifacts(log) && !e.Snapshotted? && !e.Dumped?
  {
    assert (log + [e])[..|log|] == log;
  }

  lemma {:induction false} GuardedAtEveryStep(start: World, log: seq<Event>, k: nat)
    requires GuardedThroughout(start, log) && k <= |log|
    ensures Guarded(start, After(start, log[..k]))
    decreases |log|
  {
    hide Guarded;
    if k < |log| {
      var before := log[..|log| - 1];
      GuardedAtEveryStep(start, before, k);
      assert before[..k] == log[..k];
    } else {
      assert log[..k] == log;
    }
  }

  // ---- Boot recovery -----------------------------------------------------------------------

  /** What a boot finds: the process is new, and a stop that was under way has finished. */
  function Rebooted(w: World): World {
    w.(run := if w.run.Unsettled? then Down else w.run, owed := false)
  }

  /** reconcile_on_boot, for one instance. */
  method ReconcileOnBoot(w: World, restart: Restart) returns (log: seq<Event>)
    ensures log == BootLog(w, restart)
  {
    log := [];
    if w.marker {
      if w.run.Down? {
        log := log + [RestartTried(restart)];
      }
      log := log + [Unmarked];
    }
  }

  function BootLog(w: World, restart: Restart): seq<Event> {
    if !w.marker then [] else if w.run.Down? then [RestartTried(restart), Unmarked] else [Unmarked]
  }

  /** A completed boot leaves no marker, and the instance running exactly if it was, or the marker was there
      and the containers had all stopped: a boot that still finds some of them running drops the marker and
      starts nothing. */
  lemma BootBringsBackIff(w: World)
    ensures var w' := After(w, BootLog(w, Starts));
      !w'.marker && (w'.run.Up? <==> w.run.Up? || (w.marker && w.run.Down?))
  {
    LogGrows(w, false, [], if w.run.Down? then RestartTried(Starts) else Unmarked);
    LogGrows(w, false, [RestartTried(Starts)], Unmarked);
    assert [] + [Unmarked] == [Unmarked] && [] + [RestartTried(Starts)] == [RestartTried(Starts)];
    assert [RestartTried(Starts)] + [Unmarked] == [RestartTried(Starts), Unmarked];
  }

  /** Boots killed at the given steps of their work, one after the other. */
  function AfterBoots(w: World, kills: seq<nat>): World
    decreases |kills|
  {
    if kills == [] then w
    else
      var log := BootLog(w, Starts);
      AfterBoots(Rebooted(After(w, log[..if kills[0] < |log| then kills[0] else |log|])), kills[1..])
  }

  lemma BootStepKeepsGuard(start: World, w: World, k: nat)
    requires Guarded(start, w) && start.run.Up? && (w.run.Up? || w.run.Down?) && k <= |BootLog(w, Starts)|
    ensures var w' := Rebooted(After(w, BootLog(w, Starts)[..k])); Guarded(start, w') && (w'.run.Up? || w'.run.Down?)
  {
    var log := BootLog(w, Starts);
    if k == |log| {
      assert log[..k] == log;
      BootBringsBackIff(w);
    } else if k == 1 {
      assert log[..k] == [] + [RestartTried(Starts)];
      LogGrows(w, false, [], RestartTried(Starts));
    } else {
      assert log[..k] == [];
    }
  }

  /** A crash at any step of a guarded job, then any number of boots killed at any step, then one that is
      not: the instance that was running runs. */
  lemma {:induction false} CrashIsRepaired(start: World, w: World, kills: seq<nat>)
    requires Guarded(start, w) && start.run.Up? && (w.run.Up? || w.run.Down?)
    ensures var v := AfterBoots(w, kills); After(v, BootLog(v, Starts)).run.Up?
    decreases |kills|
  {
    if kills == [] {
      BootBringsBackIff(w);
    } else {
      var log := BootLog(w, Starts);
      var k := if kills[0] < |log| then kills[0] else |log|;
      BootStepKeepsGuard(start, w, k);
      CrashIsRepaired(start, Rebooted(After(w, log[..k])), kills[1..]);
    }
  }

  lemma {:induction false} KeepsItsContainers(start: World, log: seq<Event>)
    requires !start.run.Unknown?
    ensures !After(start, log).run.Unknown?
    decreases |log|
  {
    if log != [] {
      KeepsItsContainers(start, log[..|log| - 1]);
    }
  }

  /** The guarantee of the marker: a guarded job on a running instance may be killed at any step. */
  lemma CrashDuringBackup(start: World, log: seq<Event>, k: nat, kills: seq<nat>)
    requires start.run.Up? && GuardedThroughout(start, log) && k <= |log|
    ensures var v := AfterBoots(Rebooted(After(start, log[..k])), kills); After(v, BootLog(v, Starts)).run.Up?
  {
    GuardedAtEveryStep(start, log, k);
    KeepsItsContainers(start, log[..k]);
    CrashIsRepaired(start, Rebooted(After(start, log[..k])), kills);
  }

  // ---- What the job meets --------------------------------------------------------------------

  /** A container as docker lists it: its service label, its dump hook label, and whether the hook's command
      line can be split. */
  datatype Container = Container(
    service: Option<Service>,
    name: string,
    running: bool,
    dump: Option<string>,
    splits: bool)

  /** `docker exec <dump> | restic backup --stdin`. */
  datatype Pipe = Pipe(breaks: bool, timesOut: bool, producer: int, consumer: int, code: string,
                       id: SnapshotId, bytes: Option<int>)

  datatype Outside = Outside(
    listed: seq<Volume>,
    l4: bool,
    markerWritten: bool,
    stops: bool,
    wait: Wait,
    repo: Step,
    backup: Step,
    id: SnapshotId,
    bytes: Option<int>,
    containers: seq<Container>,
    pipe: Pipe,
    restart: Restart)

  predicate Declares(c: Container) {
    c.running && c.dump.Some? && c.dump.value != ""
  }

  function ServiceOf(c: Container): Service {
    if c.service.Some? && c.service.value != "" then c.service.value else c.name
  }

  /** The services with a dump hook, one entry a running container. */
  function Hooks(containers: seq<Container>): seq<Service> {
    if containers == [] then []
    else
      var last := containers[|containers| - 1];
      Hooks(containers[..|containers| - 1]) + if Declares(last) then [ServiceOf(last)] else []
  }

  /** With one hook there is one running container that declares it, and the hook is its service's. */
  predicate OnlyHook(containers: seq<Container>, i: nat) {
    && i < |containers|
    && (forall j :: 0 <= j < |containers| ==>
          (j == i <==> containers[j].running && containers[j].dump.Some? && containers[j].dump.value != ""))
  }

  lemma {:induction false} NoHooksIff(containers: seq<Container>)
    ensures Hooks(containers) == [] <==>
      forall j :: 0 <= j < |containers| ==>
        !(containers[j].running && containers[j].dump.Some? && containers[j].dump.value != "")
  {
    if containers != [] {
      NoHooksIff(containers[..|containers| - 1]);
    }
  }

  lemma {:induction false} OneHookIff(containers: seq<Container>)
    ensures |Hooks(containers)| == 1 <==> exists i: nat :: OnlyHook(containers, i)
    ensures forall i: nat :: OnlyHook(containers, i) ==>
      Hooks(containers) == [if containers[i].service.Some? && containers[i].service.value != ""
                            then containers[i].service.value else containers[i].name]
  {
    if containers != [] {
      var n := |containers| - 1;
      var front := containers[..n];
      OneHookIff(front);
      NoHooksIff(front);
      forall i: nat ensures OnlyHook(containers, i) <==>
        if Declares(containers[n]) then i == n && Hooks(front) == [] else OnlyHook(front, i)
      {
        assert forall j :: 0 <= j < n ==> front[j] == containers[j];
      }
      if Declares(containers[n]) {
        assert |Hooks(containers)| == |Hooks(front)| + 1;
        assert Hooks(front) == [] ==> OnlyHook(containers, n);
      }
    }
  }

  /** _dump_hooks; None when some hook cannot be split. */
  method DumpHooks(containers: seq<Container>) returns (r: Option<seq<Service>>)
    ensures r.Some? <==> forall c :: c in containers && Declares(c) ==> c.splits
    ensures r.Some? ==> r.value == Hooks(containers)
  {
    var hooks: seq<Service> := [];
    for i := 0 to |containers|
      invariant hooks == Hooks(containers[..i])
      invariant forall c :: c in containers[..i] && Declares(c) ==> c.splits
    {
      var c := containers[i];
      assert containers[..i + 1] == containers[..i] + [c];
      if c.running && c.dump.Some? && c.dump.value != "" {
        if !c.splits {
          assert c in containers && Declares(c);
          return None;
        }
        hooks := hooks + [ServiceOf(c)];
      }
    }
    assert containers[..|containers|] == containers;
    return Some(hooks);
  }

  /** Both ends finished well and something was stored. */
  predicate Complete(p: Pipe) {
    !p.breaks && !p.timesOut && p.producer == 0 && p.consumer == 0 && p.bytes.Some? && p.bytes.value != 0
  }

  /** _dump_and_backup: a dump that died is an error even when restic stored what it had sent. */
  method DumpAndBackup(p: Pipe) returns (r: Result<(SnapshotId, int), Step>)
    ensures r.Ok? <==> Complete(p)
    ensures r.Ok? <==>
      !p.breaks && !p.timesOut && p.producer == 0 && p.consumer == 0 && p.bytes.Some? && p.bytes.value != 0
    ensures r.Ok? ==> r.value == (p.id, p.bytes.value)
    ensures !p.breaks && !p.timesOut && p.producer != 0 ==> r == Err(Refused("dump_failed"))
    ensures !p.breaks && !p.timesOut && p.producer == 0 && p.consumer != 0 ==> r == Err(Refused(p.code))
    ensures r.Err? && !p.breaks && !p.timesOut && p.producer == 0 && p.consumer == 0 ==> r == Err(Refused("dump_empty"))
  {
    if p.breaks {
      return Err(Broke);
    }
    if p.timesOut {
      return Err(Refused("timeout"));
    }
    if p.producer != 0 {
      return Err(Refused("dump_failed"));
    }
    if p.consumer != 0 {
      return Err(Refused(p.code));
    }
    if p.bytes.None? || p.bytes.value == 0 {
      return Err(Refused("dump_empty"));
    }
    return Ok((p.id, p.bytes.value));
  }

  /** The compose volumes the classification calls databases. */
  function Databases(classes: Classes): set<string> {
    set c | c in classes && classes[c] == "database"
  }

  predicate HasData(id: string, classes: Classes, o: Outside) {
    exists v :: v in o.listed && IsData(v, id, classes)
  }

  /** Every check a hot backup makes before its first snapshot. */
  predicate Admits(id: string, classes: Classes, o: Outside) {
    && (forall v :: v in o.listed ==> Classified(v, id, classes))
    && (HasData(id, classes, o) || Databases(classes) != {})
    && (Databases(classes) != {} ==>
          && |Databases(classes)| == 1 && |Hooks(o.containers)| == 1
          && (forall c :: c in o.containers && Declares(c) ==> c.splits))
    && o.repo.Fine?
  }

  predicate HotSucceeds(id: string, classes: Classes, o: Outside) {
    && Admits(id, classes, o)
    && (HasData(id, classes, o) ==> o.backup.Fine?)
    && (Databases(classes) != {} ==> Complete(o.pipe))
  }

  /** The snapshot of exactly the data volumes, with the L4 file when there is one. */
  ghost predicate DataSnapshot(id: string, classes: Classes, o: Outside, e: Event) {
    && e.Snapshotted? && e.id == o.id
    && forall v :: v in e.mounts <==> (v in o.listed && IsData(v, id, classes)) || (v == L4_PORTS && o.l4)
  }

  /** The body of a hot success names the snapshots taken, and only those. */
  ghost predicate HotDelivered(id: string, classes: Classes, o: Outside, log: seq<Event>, payload: Payload) {
    && (if HasData(id, classes, o) then "data" in payload.manifest && payload.manifest["data"] == o.id
          && payload.snapshot == o.id && (exists e :: e in log && DataSnapshot(id, classes, o, e))
        else "data" !in payload.manifest)
    && (Databases(classes) != {} ==>
          && |Hooks(o.containers)| == 1 && o.pipe.bytes.Some?
          && payload.manifest.Keys - {"data"} == {"db:" + Hooks(o.containers)[0]}
          && payload.manifest["db:" + Hooks(o.containers)[0]] == o.pipe.id
          && Dumped(Hooks(o.containers)[0], o.pipe.id, o.pipe.bytes.value) in log
          && (!HasData(id, classes, o) ==> payload.snapshot == o.pipe.id))
    && (Databases(classes) == {} ==> payload.manifest.Keys == {"data"} && forall e :: e in log ==> !e.Dumped?)
  }

  // ---- What a hot success means, in the terms of its classification ------------------------------

  /** The one database there is has the one hook there is, whose complete dump is stored and in the manifest. */
  ghost predicate DatabaseIsDumped(classes: Classes, o: Outside, log: seq<Event>, payload: Payload) {
    exists c, i: nat ::
      && c in classes && classes[c] == "database"
      && (forall d :: d in classes && classes[d] == "database" ==> d == c)
      && OnlyHook(o.containers, i)
      && var service := if o.containers[i].service.Some? && o.containers[i].service.value != ""
                        then o.containers[i].service.value else o.containers[i].name;
         o.pipe.bytes.Some? && Dumped(service, o.pipe.id, o.pipe.bytes.value) in log
         && "db:" + service in payload.manifest && payload.manifest["db:" + service] == o.pipe.id
  }

  /** Every volume has a class, and the snapshot holds exactly those of class data, with the L4 file. */
  ghost predicate DataIsStored(id: string, classes: Classes, o: Outside, log: seq<Event>) {
    && (forall v :: v in o.listed ==>
          Called(v, id) in classes && classes[Called(v, id)] in {"data", "regenerable", "database"})
    && ((exists v :: v in o.listed && classes[Called(v, id)] == "data") ==>
          exists e :: e in log && e.Snapshotted? && e.id == o.id
            && forall v :: v in e.mounts <==>
                 (v in o.listed && classes[Called(v, id)] == "data") || (v == "l4_ports.json" && o.l4))
  }

  /** The volume without the instance's prefix. */
  function Called(v: Volume, id: string): string {
    if |v| > |id| && v[..|id| + 1] == id + "_" then v[|id| + 1..] else v
  }

  lemma CalledIs(v: Volume, id: string)
    ensures Called(v, id) == ComposeName(v, id)
  {
    if id + "_" <= v {
      assert v[..|id| + 1] == id + "_";
    }
  }

  lemma HotMeans(id: string, classes: Classes, o: Outside, log: seq<Event>, payload: Payload)
    requires HotSucceeds(id, classes, o) && HotDelivered(id, classes, o, log, payload)
    ensures DataIsStored(id, classes, o, log)
    ensures (exists c :: c in classes && classes[c] == "database") ==> DatabaseIsDumped(classes, o, log, payload)
    ensures !(exists c :: c in classes && classes[c] == "database") ==>
      payload.manifest.Keys == {"data"} && forall e :: e in log ==> !e.Dumped?
  {
    hide Hooks, Called, ComposeName;
    forall v ensures Called(v, id) == ComposeName(v, id) {
      CalledIs(v, id);
    }
    OneHookIff(o.containers);
    if c :| c in classes && classes[c] == "database" {
      assert c in Databases(classes);
      var i: nat :| OnlyHook(o.containers, i);
      forall d | d in classes && classes[d] == "database" ensures d == c {
        OnlyOne(Databases(classes), c, d);
      }
    } else {
      assert Databases(classes) == {};
    }
  }

  lemma OnlyOne<T>(s: set<T>, a: T, b: T)
    requires |s| == 1 && a in s && b in s
    ensures a == b
  {
    assert |s - {a}| == 0;
    assert s - {a} == {};
    assert b in s - {a} <==> a != b;
  }

  predicate HasHook(o: Outside) {
    exists j :: 0 <= j < |o.containers|
                && o.containers[j].running && o.containers[j].dump.Some? && o.containers[j].dump.value != ""
  }

  predicate TwoDatabases(classes: Classes) {
    exists c, d :: c in classes && d in classes && c != d && classes[c] == "database" && classes[d] == "database"
  }

  predicate AllSplit(o: Outside) {
    forall j :: 0 <= j < |o.containers|
                && o.containers[j].running && o.containers[j].dump.Some? && o.containers[j].dump.value != "" ==>
      o.containers[j].splits
  }

  /** The codes of the checks that come first. */
  ghost function Refuses(id: string, classes: Classes, o: Outside): Option<string> {
    if exists v :: v in o.listed
         && (Called(v, id) !in classes || classes[Called(v, id)] !in {"data", "regenerable", "database"})
    then Some("volume_unclassified")
    else if (forall v :: v in o.listed ==> classes[Called(v, id)] != "data")
            && (forall c :: c in classes ==> classes[c] != "database")
    then Some("no_data_volumes")
    else if TwoDatabases(classes) && AllSplit(o) then Some("multiple_database_unsupported")
    else if (exists c :: c in classes && classes[c] == "database") && !TwoDatabases(classes) && !HasHook(o)
    then Some("no_dump_hook")
    else None
  }

  lemma SomeDatabaseIff(classes: Classes)
    ensures Databases(classes) != {} <==> exists c :: c in classes && classes[c] == "database"
    ensures TwoDatabases(classes) <==> |Databases(classes)| > 1
  {
    var all := Databases(classes);
    if c :| c in classes && classes[c] == "database" {
      assert c in all;
      if |all| > 1 {
        assert |all - {c}| > 0;
        var d :| d in all - {c};
        assert c != d;
      }
    }
    if TwoDatabases(classes) {
      var c, d :| c in classes && d in classes && c != d && classes[c] == "database" && classes[d] == "database";
      assert {c, d} <= all && |all - {c, d}| == |all| - |{c, d}|;
    }
  }

  lemma RefusesIs(id: string, classes: Classes, o: Outside)
    ensures Refuses(id, classes, o) ==
      if exists v :: v in o.listed && !Classified(v, id, classes) then Some("volume_unclassified")
      else if !HasData(id, classes, o) && Databases(classes) == {} then Some("no_data_volumes")
      else if |Databases(classes)| > 1 && AllSplit(o) then Some("multiple_database_unsupported")
      else if |Databases(classes)| == 1 && Hooks(o.containers) == [] then Some("no_dump_hook")
      else None
    ensures AllSplit(o) <==> forall c :: c in o.containers && Declares(c) ==> c.splits
    ensures Hooks(o.containers) == [] ==> AllSplit(o)
  {
    hide Hooks, Called, ComposeName;
    NoHooksIff(o.containers);
    SomeDatabaseIff(classes);
    forall v ensures Called(v, id) == ComposeName(v, id) {
      CalledIs(v, id);
    }
  }

  // ---- The job -----------------------------------------------------------------------------

  datatype Exit = Proceeds | Returned | Raised(step: Step)

  class Job {
    const start: World
    const hot: bool
    const o: Outside
    var world: World
    var log: seq<Event>
    var payload: Payload
    var stoppedForBackup: bool
    ghost var guarded: bool

    constructor (start: World, hot: bool, o: Outside)
      requires Entry(start)
      ensures this.start == start && this.hot == hot && this.o == o && world == start && log == [] && Valid()
      ensures guarded && !stoppedForBackup && payload == Failure("snapshot_failed")
    {
      this.start, this.hot, this.o := start, hot, o;
      world, log, payload, stoppedForBackup, guarded := start, [], Failure("snapshot_failed"), false, true;
    }

    ghost predicate Valid()
      reads this
    {
      && Entry(start) && world == After(start, log) && Proper(start, hot, log)
      && (guarded <==> GuardedThroughout(start, log))
    }

    method Emit(e: Event)
      requires Valid() && Legal(hot, world, e)
      modifies this`world, this`log, this`guarded
      ensures Valid() && world == Apply(old(world), e) && log == old(log) + [e]
      ensures guarded <==> old(guarded) && Guarded(start, world)
      ensures NoArtifacts(log) <==> NoArtifacts(old(log)) && !e.Snapshotted? && !e.Dumped?
    {
      LogGrows(start, hot, log, e);
      world, log, guarded := Apply(world, e), log + [e], guarded && Guarded(start, Apply(world, e));
    }

    /** The cold branch of the try block. */
    method Cold() returns (exit: Exit)
      requires Valid() && !hot && world == start && log == [] && guarded && !stoppedForBackup && !start.run.Unknown?
      requires payload == Failure("snapshot_failed")
      modifies this
      ensures Valid() && world.locked && world.sent == []
      ensures exit.Proceeds? <==> ColdSucceeds(start, o)
      ensures (payload.success <==> exit.Proceeds?) && (exit.Proceeds? ==> ColdDelivered(o, log, payload))
      ensures stoppedForBackup <==> start.run.Up? && o.stops
      ensures world.owed <==> stoppedForBackup
      ensures guarded <==> start.run.Up? && o.stops ==> o.markerWritten
      ensures world.marker <==> start.run.Up? && o.markerWritten
      ensures world.run == if stoppedForBackup then (if o.wait.Settles? then Down else Unsettled) else start.run
      ensures stoppedForBackup && o.wait.TimesOut? ==>
        exit.Returned? && payload == Failure("stop_timeout") && NoArtifacts(log)
    {
      hide Proper, After, GuardedThroughout, NoArtifacts;
      EmptyLog(start);
      if start.run.Up? {
        Emit(Marked(o.markerWritten));
        if !o.stops {
          return Raised(Broke);
        }
        Emit(StopIssued);
        stoppedForBackup := true;
        if o.wait.WaitBroke? {
          return Raised(Broke);
        }
        if o.wait.TimesOut? {
          payload := payload.(code := "stop_timeout");
          return Returned;
        }
        Emit(Settled);
      }
      var mounts := BackupMounts(o.listed, o.l4);
      if !o.repo.Fine? {
        return Raised(o.repo);
      }
      if o.backup.Broke? {
        return Raised(Broke);
      }
      if o.backup.Refused? {
        payload := payload.(code := o.backup.code);
        return Returned;
      }
      Emit(Snapshotted(mounts, o.id));
      payload := Payload(true, "", o.id, o.bytes, map[]);
      assert log[|log| - 1] in log;
      return Proceeds;
    }

    /** _run_hot_backup. */
    method Hot(id: string, classes: Classes) returns (exit: Exit)
      requires Valid() && hot && world == start && log == [] && guarded && payload == Failure("snapshot_failed")
      modifies this`world, this`log, this`guarded, this`payload
      ensures Valid() && world == start && guarded
      ensures exit.Proceeds? <==> HotSucceeds(id, classes, o)
      ensures if exit.Proceeds? then payload.success && HotDelivered(id, classes, o, log, payload)
        else exit.Raised? && payload == old(payload)
      ensures !Admits(id, classes, o) ==> log == []
      ensures Refuses(id, classes, o).Some? ==>
        exit == Raised(Refused(Refuses(id, classes, o).value)) && log == []
    {
      hide Proper, After, GuardedThroughout, NoArtifacts, Hooks, Refuses, IsData, Classified, Databases, HasData,
        HotDelivered, DataSnapshot;
      RefusesIs(id, classes, o);
      var mounts := HotBackupMounts(o.listed, id, classes, o.l4);
      if mounts.Err? {
        return Raised(Refused(mounts.error));
      }
      NoMounts(mounts.value, id, classes, o);
      var databases := Databases(classes);
      if mounts.value == [] && databases == {} {
        return Raised(Refused("no_data_volumes"));
      }
      var hooks: seq<Service> := [];
      if databases != {} {
        var found := DumpHooks(o.containers);
        if found.None? {
          return Raised(Broke);
        }
        hooks := found.value;
        if |databases| > 1 || |hooks| > 1 {
          return Raised(Refused("multiple_database_unsupported"));
        }
        if hooks == [] {
          return Raised(Refused("no_dump_hook"));
        }
        assert |databases| == 1;
      }
      if !o.repo.Fine? {
        return Raised(o.repo);
      }
      exit := TakeSnapshots(id, classes, mounts.value, hooks);
    }

    /** The artifacts of a hot backup whose checks passed. */
    method TakeSnapshots(id: string, classes: Classes, mounts: seq<Volume>, hooks: seq<Service>) returns (exit: Exit)
      requires Valid() && hot && world == start && log == [] && guarded && payload == Failure("snapshot_failed")
      requires Admits(id, classes, o) && (mounts != [] <==> HasData(id, classes, o))
      requires mounts != [] ==> DataSnapshot(id, classes, o, Snapshotted(mounts, o.id))
      requires hooks == if Databases(classes) != {} then Hooks(o.containers) else []
      modifies this`world, this`log, this`guarded, this`payload
      ensures Valid() && world == start && guarded
      ensures exit.Proceeds? <==> HotSucceeds(id, classes, o)
      ensures if exit.Proceeds? then payload.success && HotDelivered(id, classes, o, log, payload)
        else exit.Raised? && payload == old(payload)
    {
      hide Proper, After, GuardedThroughout, NoArtifacts, Hooks, DataSnapshot;
      var manifest: map<string, SnapshotId> := map[];
      var total := 0;
      if mounts != [] {
        if !o.backup.Fine? {
          return Raised(o.backup);
        }
        Emit(Snapshotted(mounts, o.id));
        assert log[0] == Snapshotted(mounts, o.id);
        manifest, total := manifest["data" := o.id], if o.bytes.Some? then o.bytes.value else 0;
      }
      ghost var before := log;
      if hooks != [] {
        var dumped := DumpAndBackup(o.pipe);
        if dumped.Err? {
          return Raised(dumped.error);
        }
        Emit(Dumped(hooks[0], dumped.value.0, dumped.value.1));
        assert log[|before|] == Dumped(hooks[0], dumped.value.0, dumped.value.1);
        assert forall e :: e in before ==> e in log;
        manifest, total := manifest["db:" + hooks[0] := dumped.value.0], total + dumped.value.1;
      }
      var primary := if "data" in manifest && manifest["data"] != "" then manifest["data"]
        else if mounts != [] then o.id else o.pipe.id;
      payload := Payload(true, "", primary, Some(total), manifest);
      assert forall s: string :: ("db:" + s)[1] != "data"[1];
      return Proceeds;
    }

    /** The except clauses and the finally block. */
    method Conclude(exit: Exit)
      requires Valid() && world.locked && world.sent == [] && (payload.success <==> exit.Proceeds?)
      requires (world.owed <==> stoppedForBackup) && (stoppedForBackup ==> !hot)
      modifies this
      ensures Valid() && stoppedForBackup == old(stoppedForBackup)
      ensures payload == if exit.Raised?
        then old(payload).(code := if exit.step.Refused? then exit.step.code else "snapshot_failed") else old(payload)
      ensures world.sent == [payload] && !world.locked && !world.marker && !world.owed
      ensures world.run ==
        if stoppedForBackup && o.restart.Starts? && !old(world.run).Unsettled? then Up else old(world.run)
      ensures old(log) <= log && (NoArtifacts(old(log)) ==> NoArtifacts(log))
      ensures forall e :: e in log && (e.Snapshotted? || e.Dumped?) ==> e in old(log)
      ensures guarded <==> old(guarded) && Guarded(start, world)
    {
      hide Proper, After, GuardedThroughout, NoArtifacts;
      if exit.Raised? {
        payload := payload.(code := if exit.step.Refused? then exit.step.code else "snapshot_failed");
      }
      if stoppedForBackup {
        Emit(RestartTried(o.restart));
      }
      Emit(Unmarked);
      if payload.success {
        Emit(Forgot);
      }
      Emit(Released);
      Emit(Called(payload));
    }
  }

  predicate ColdSucceeds(start: World, o: Outside) {
    (start.run.Up? ==> o.stops && o.wait.Settles?) && o.repo.Fine? && o.backup.Fine?
  }

  /** The snapshot holds every volume of the instance, and the body names it. */
  ghost predicate ColdDelivered(o: Outside, log: seq<Event>, payload: Payload) {
    && payload.success && payload.snapshot == o.id && payload.bytes == o.bytes
    && exists e :: e in log && e.Snapshotted? && e.id == o.id
         && forall v :: v in e.mounts <==> v in o.listed || (o.l4 && v == L4_PORTS)
  }

  lemma NoMounts(mounts: seq<Volume>, id: string, classes: Classes, o: Outside)
    requires forall v :: v in mounts <==>
      || (v in o.listed && IsData(v, id, classes))
      || (v == L4_PORTS && o.l4 && exists u :: u in o.listed && IsData(u, id, classes))
    ensures mounts != [] <==> HasData(id, classes, o)
    ensures mounts != [] ==> DataSnapshot(id, classes, o, Snapshotted(mounts, o.id))
  {
    if mounts != [] {
      assert mounts[0] in mounts;
    }
    if HasData(id, classes, o) {
      var v :| v in o.listed && IsData(v, id, classes);
      assert v in mounts;
    }
  }

  /** backup_instance. A cold backup succeeds exactly when its steps do, and then every volume is in the one
      snapshot; a hot one exactly when every volume is classified, its data is stored and its one database, if
      it has any, is dumped, and no snapshot is taken before all of that was checked. Either way every effect
      fits the rules, and a running instance is guarded against a crash at every step exactly when, once it
      was stopped, the marker had been written, the stop was seen to finish and the restart worked. */
  method BackupInstance(start: World, id: string, classes: Classes, o: Outside)
    returns (log: seq<Event>, payload: Payload)
    requires Entry(start)
    ensures Proper(start, classes != map[], log)
    ensures payload.success <==>
      !start.run.Unknown? && if classes == map[] then ColdSucceeds(start, o) else HotSucceeds(id, classes, o)
    ensures payload.success ==>
      if classes == map[] then ColdDelivered(o, log, payload) else HotDelivered(id, classes, o, log, payload)
    ensures payload.success && classes != map[] ==>
      && DataIsStored(id, classes, o, log)
      && if exists c :: c in classes && classes[c] == "database" then DatabaseIsDumped(classes, o, log, payload)
         else payload.manifest.Keys == {"data"} && forall e :: e in log ==> !e.Dumped?
    ensures classes != map[] && !start.run.Unknown? && Refuses(id, classes, o).Some? ==>
      !payload.success && payload.code == Refuses(id, classes, o).value && NoArtifacts(log)
    ensures classes == map[] && start.run.Up? && o.stops && o.wait.TimesOut? ==>
      !payload.success && payload.code == "stop_timeout" && NoArtifacts(log)
    ensures classes != map[] && !Admits(id, classes, o) ==> NoArtifacts(log)
    ensures start.run.Unknown? ==> NoArtifacts(log) && payload.code == "instance_missing"
    ensures GuardedThroughout(start, log) <==>
      (classes == map[] && start.run.Up? && o.stops ==> o.markerWritten && o.wait.Settles? && o.restart.Starts?)
    ensures var w := After(start, log); w.sent == [payload] && !w.locked && !w.marker
    ensures classes != map[] || !start.run.Up? || !o.stops ==> After(start, log).run == start.run
  {
    hide Proper, After, GuardedThroughout, NoArtifacts, HotDelivered, ColdDelivered, Admits, HotSucceeds;
    EmptyLog(start);
    ChecksComeFirst(id, classes, o);
    var job := new Job(start, classes != map[], o);
    var exit := Returned;
    if start.run.Unknown? {
      job.payload := Failure("instance_missing");
    } else if classes != map[] {
      exit := job.Hot(id, classes);
    } else {
      exit := job.Cold();
    }
    ghost var before, body := job.log, job.payload;
    job.Conclude(exit);
    if exit.Proceeds? {
      DeliveredSince(id, classes, o, before, job.log, body);
      if classes != map[] {
        HotMeans(id, classes, o, job.log, body);
      }
    }
    return job.log, job.payload;
  }

  lemma EmptyLog(start: World)
    ensures NoArtifacts([]) && After(start, []) == start && (Entry(start) ==> Guarded(start, start))
  {
  }

  lemma ChecksComeFirst(id: string, classes: Classes, o: Outside)
    ensures HotSucceeds(id, classes, o) ==> Admits(id, classes, o)
  {
  }

  lemma DeliveredSince(id: string, classes: Classes, o: Outside, before: seq<Event>, log: seq<Event>, payload: Payload)
    requires before <= log
    ensures ColdDelivered(o, before, payload) ==> ColdDelivered(o, log, payload)
    ensures (forall e :: e in log && e.Dumped? ==> e in before) ==>
      HotDelivered(id, classes, o, before, payload) ==> HotDelivered(id, classes, o, log, payload)
  {
    hide Hooks, DataSnapshot;
    assert forall e :: e in before ==> e in log;
  }
}
