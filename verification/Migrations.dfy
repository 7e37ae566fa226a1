/**
 The operations-migration ledger and runner, over any number of batches that may
 be killed at any step.
 */
module Migrations {
  import opened Values

  type Id = string

  const LEGACY: Id := "0001_namespace_catalog_volumes"

  datatype Migration = Migration(id: Id, advisory: bool, stopOnFailure: bool)

  // ---- The data root -----------------------------------------------------------------------

  /** How the ledger file reads: as it should; not at all, which load makes an empty view of; as bytes that are no
      UTF-8, for which load raises; or with an entry that has no id, for which every lookup raises. */
  datatype Kind = Sound | Unreadable | FailsToLoad | FailsToLook

  /** The ledger file: the ids it records, and how it reads. */
  datatype Disk = Disk(ids: seq<Id>, kind: Kind)

  datatype World = World(
    disk: Disk,
    sentinel: bool,     // the legacy sentinel file
    clean: set<Id>)     // migrations that have had an error-free run

  /** What load makes of the file: an unreadable one is an empty view. */
  function View(d: Disk): seq<Id> {
    if d.kind.Unreadable? then [] else d.ids
  }

  datatype Event =
    | Ran(migration: Migration, clean: bool)
    | Wrote(ids: seq<Id>)      // os.replace of the ledger file
    | Unlinked                 // the sentinel

  function Apply(w: World, e: Event): World {
    match e
    case Ran(m, clean) => if clean then w.(clean := w.clean + {m.id}) else w
    case Wrote(ids) => w.(disk := Disk(ids, if w.disk.kind.FailsToLook? then FailsToLook else Sound))
    case Unlinked => w.(sentinel := false)
  }

  function After(start: World, log: seq<Event>): World {
    if log == [] then start else Apply(After(start, log[..|log| - 1]), log[|log| - 1])
  }

  /** What may happen when: a required migration runs only while the ledger does not record it; the file gains one
      id at a time, of a migration that has run without error or of the one the sentinel stands for; the sentinel
      goes only once the ledger stands in for it. */
  predicate Legal(w: World, e: Event) {
    match e
    case Ran(m, _) => (w.disk.kind.Sound? || w.disk.kind.Unreadable?) && (m.advisory || m.id !in View(w.disk))
    case Wrote(ids) =>
      && !w.disk.kind.FailsToLoad? && |ids| == |View(w.disk)| + 1 && View(w.disk) == ids[..|ids| - 1]
      && (ids[|ids| - 1] in w.clean || (ids[|ids| - 1] == LEGACY && w.sentinel))
    case Unlinked => !w.disk.kind.FailsToLoad? && LEGACY in View(w.disk)
  }

  predicate Proper(start: World, log: seq<Event>) {
    log == [] ||
    (var before := log[..|log| - 1]; Proper(start, before) && Legal(After(start, before), log[|log| - 1]))
  }

  lemma LogGrows(start: World, log: seq<Event>, e: Event)
    ensures After(start, log + [e]) == Apply(After(start, log), e)
    ensures Proper(start, log + [e]) <==> Proper(start, log) && Legal(After(start, log), e)
  {
    assert (log + [e])[..|log|] == log;
  }

  lemma {:induction false} ProperPrefix(start: World, log: seq<Event>, k: nat)
    requires Proper(start, log) && k <= |log|
    ensures Proper(start, log[..k])
    ensures k < |log| ==> Legal(After(start, log[..k]), log[k])
    decreases |log|
  {
    hide Legal;
    if k < |log| {
      var before := log[..|log| - 1];
      ProperPrefix(start, before, k);
      assert before[..k] == log[..k];
    } else {
      assert log[..k] == log;
    }
  }

  /** Histories join: what one batch did and the next did from there. */
  lemma {:induction false} Join(start: World, a: seq<Event>, b: seq<Event>)
    requires Proper(start, a) && Proper(After(start, a), b)
    ensures Proper(start, a + b) && After(start, a + b) == After(After(start, a), b)
    decreases |b|
  {
    hide Legal, Apply;
    if b == [] {
      assert a + b == a;
    } else {
      Join(start, a, b[..|b| - 1]);
      assert (a + b)[..|a + b| - 1] == a + b[..|b| - 1];
    }
  }

  // ---- What the rules give -----------------------------------------------------------------

  /** Recorded ids are justified, and the sentinel's word is not lost. */
  predicate Justified(start: World, w: World) {
    && View(start.disk) <= View(w.disk) && start.clean <= w.clean
    && (forall id :: id in View(w.disk) && id !in View(start.disk) ==>
          id in w.clean || (id == LEGACY && start.sentinel))
    && (start.sentinel ==> w.sentinel || LEGACY in View(w.disk))
    && (w.sentinel ==> start.sentinel)
  }

  lemma StepJustifies(start: World, w: World, e: Event)
    requires Justified(start, w) && Legal(w, e)
    ensures Justified(start, Apply(w, e))
  {
    if e.Wrote? {
      var last := e.ids[|e.ids| - 1];
      assert e.ids == View(w.disk) + [last];
    }
  }

  /** Over any proper history the ids in view only grow, each new one has had an error-free run or stands for the
      sentinel, and a sentinel is removed only when the ledger has taken its place. */
  lemma {:induction false} EverythingRecordedIsJustified(start: World, log: seq<Event>)
    requires Proper(start, log)
    ensures Justified(start, After(start, log))
    decreases |log|
  {
    hide Legal, Apply;
    if log == [] {
      NothingYet(start);
    } else {
      var before := log[..|log| - 1];
      EverythingRecordedIsJustified(start, before);
      StepJustifies(start, After(start, before), log[|log| - 1]);
    }
  }

  lemma NothingYet(start: World)
    ensures Justified(start, start)
  {
  }

  /** A migration the ledger records never runs again, unless it is advisory. */
  lemma RecordedNeverRunsAgain(start: World, log: seq<Event>, i: nat, j: nat)
    requires Proper(start, log) && i <= j < |log| && log[j].Ran? && !log[j].migration.advisory
    ensures log[j].migration.id !in View(After(start, log[..i]).disk)
  {
    hide Apply;
    ProperPrefix(start, log, j);
    ProperPrefix(start, log, i);
    Suffix(start, log[..j], i);
    assert log[..j][..i] == log[..i];
    EverythingRecordedIsJustified(After(start, log[..i]), log[i..j]);
    assert log[..j][i..] == log[i..j];
  }

  lemma {:induction false} Suffix(start: World, log: seq<Event>, i: nat)
    requires Proper(start, log) && i <= |log|
    ensures Proper(After(start, log[..i]), log[i..]) && After(After(start, log[..i]), log[i..]) == After(start, log)
    decreases |log|
  {
    hide Legal, Apply;
    if i == |log| {
      assert log[..i] == log && log[i..] == [];
    } else {
      var before := log[..|log| - 1];
      Suffix(start, before, i);
      assert before[..i] == log[..i] && before[i..] == log[i..][..|log[i..]| - 1];
    }
  }

  lemma Assoc<T>(a: seq<T>, b: seq<T>, c: seq<T>)
    ensures a + (b + c) == (a + b) + c
  {
  }

  /** The ids a history adds to the file, in order. */
  function Recorded(log: seq<Event>): seq<Id> {
    if log == [] then []
    else
      var before, last := Recorded(log[..|log| - 1]), log[|log| - 1];
      if last.Wrote? && last.ids != [] then before + [last.ids[|last.ids| - 1]] else before
  }

  /** The file after any history: what it recorded at the start and then what was added; but an unreadable one is
      not left alone, the first id added takes the place of all it had. */
  lemma {:induction false} LedgerIs(start: World, log: seq<Event>)
    requires Proper(start, log)
    ensures var disk := After(start, log).disk;
      && disk.ids == (if start.disk.kind.Unreadable? && Recorded(log) != [] then [] else start.disk.ids) + Recorded(log)
      && disk.kind == if start.disk.kind.Unreadable? && Recorded(log) != [] then Sound else start.disk.kind
    decreases |log|
  {
    hide View, Apply, Legal;
    if log == [] {
      assert start.disk.ids + [] == start.disk.ids;
    } else {
      var n := |log| - 1;
      LedgerIs(start, log[..n]);
      DiskStep(After(start, log[..n]), log[n]);
      ViewUnfolds(After(start, log[..n]).disk);
      if log[n].Wrote? {
        var last := [log[n].ids[|log[n].ids| - 1]];
        Assoc(start.disk.ids, Recorded(log[..n]), last);
        Assoc([], Recorded(log[..n]), last);
        assert [] + last == last;
      }
    }
  }

  lemma DiskStep(w: World, e: Event)
    requires Legal(w, e)
    ensures !e.Wrote? ==> Apply(w, e).disk == w.disk
    ensures e.Wrote? ==> e.ids != [] && e.ids == View(w.disk) + [e.ids[|e.ids| - 1]] && Apply(w, e).disk.ids == e.ids
    ensures e.Wrote? ==> Apply(w, e).disk.kind == if w.disk.kind.Unreadable? then Sound else w.disk.kind
  {
  }

  lemma ViewUnfolds(d: Disk)
    ensures View(d) == if d.kind.Unreadable? then [] else d.ids
  {
  }

  /** So over any number of batches the file keeps what it recorded, in its place, exactly when it could be read, or
      was never written, or the very same ids were recorded again. */
  lemma LedgerKeepsIff(start: World, log: seq<Event>)
    requires Proper(start, log)
    ensures start.disk.ids <= After(start, log).disk.ids <==>
      !start.disk.kind.Unreadable? || Recorded(log) == [] || start.disk.ids <= Recorded(log)
  {
    hide Proper, After, Recorded;
    LedgerIs(start, log);
    assert [] + Recorded(log) == Recorded(log);
  }

  /** A ledger that can be read stays so, and loses nothing. */
  lemma ReadableLedgerOnlyGrows(start: World, log: seq<Event>)
    requires Proper(start, log) && start.disk.kind.Sound?
    ensures After(start, log).disk.kind.Sound? && start.disk.ids <= After(start, log).disk.ids
  {
    hide Proper, After, Recorded;
    LedgerIs(start, log);
  }

  /** One that makes load, or every lookup, raise stays in place, whatever is tried: nothing runs. */
  lemma {:induction false} BrokenLedgerRunsNothing(start: World, log: seq<Event>)
    requires Proper(start, log) && (start.disk.kind.FailsToLoad? || start.disk.kind.FailsToLook?)
    ensures After(start, log).disk.kind == start.disk.kind && forall e :: e in log ==> !e.Ran?
    ensures start.disk.kind.FailsToLoad? ==> log == []
    decreases |log|
  {
    hide View;
    if log != [] {
      var before := log[..|log| - 1];
      BrokenLedgerRunsNothing(start, before);
      assert log == before + [log[|log| - 1]];
    }
  }

  /** One that cannot be read is not refused but replaced: after the first write the file holds that write's one
      id, and whatever else it recorded is gone and will run again. */
  lemma UnreadableLedgerIsReplaced(w: World, ids: seq<Id>, lost: Migration)
    requires w.disk.kind.Unreadable? && Legal(w, Wrote(ids)) && lost.id in w.disk.ids && lost.id != ids[0]
    ensures var w' := Apply(w, Wrote(ids)); w'.disk == Disk([ids[0]], Sound) && Legal(w', Ran(lost, true))
  {
    assert ids == [ids[0]];
  }

  // ---- Registering -----------------------------------------------------------------------------

  /** Registered migrations have distinct ids, and none may both be skippable and stop the rest. */
  predicate Registered(ms: seq<Migration>) {
    && (forall i, j :: 0 <= i < j < |ms| ==> ms[i].id != ms[j].id)
    && (forall i :: 0 <= i < |ms| ==> ms[i].id != "" && !(ms[i].advisory && ms[i].stopOnFailure))
  }

  class Registry {
    var migrations: seq<Migration>

    constructor ()
      ensures migrations == [] && Registered(migrations)
    {
      migrations := [];
    }

    /** register; a refusal leaves the registry as it was. */
    method Register(m: Migration) returns (ok: bool)
      requires Registered(migrations)
      modifies this
      ensures Registered(migrations)
      ensures ok <==>
        && m.id != "" && !(m.advisory && m.stopOnFailure)
        && forall i :: 0 <= i < |old(migrations)| ==> old(migrations)[i].id != m.id
      ensures migrations == if ok then old(migrations) + [m] else old(migrations)
    {
      if m.id == "" || (m.advisory && m.stopOnFailure) {
        return false;
      }
      for i := 0 to |migrations|
        invariant forall j :: 0 <= j < i ==> migrations[j].id != m.id
      {
        if migrations[i].id == m.id {
          return false;
        }
      }
      migrations := migrations + [m];
      return true;
    }
  }

  // ---- What a migration's run comes to -----------------------------------------------------------

  /** The `errors` of a summary: what int() makes of it, if it makes anything. */
  datatype Errors = Count(n: int) | NotANumber | Infinite

  /** How a migration's run ends: an exception, something that is no dict, or a summary. */
  datatype Behaviour =
    | Raises
    | NoSummary
    | Summary(backupsIterable: bool, errors: Errors)

  predicate ErrorFree(b: Behaviour) {
    b.Summary? && b.backupsIterable && b.errors.Count? && b.errors.n <= 0
  }

  /** int() of an infinite number raises an OverflowError, which the guard around it does not name. */
  predicate Overflows(b: Behaviour) {
    b.Summary? && b.backupsIterable && b.errors.Infinite?
  }

  datatype Result = Result(id: Id, ok: bool, ran: bool, advisoryFailed: bool)

  // ---- A batch, as a function of what it meets -------------------------------------------------

  datatype Batch = Batch(
    only: Option<Id>,
    dryRun: bool,
    failFast: bool,
    skipped: bool,                       // GREFFER_SKIP_OPS_MIGRATIONS
    behaviours: map<Id, Behaviour>,
    unwritable: set<Id>,                 // whose ledger write would raise
    shimWrites: bool,
    unlinks: bool)

  function BehaviourOf(batch: Batch, m: Migration): Behaviour {
    GetOr(batch.behaviours, m.id, Raises)
  }

  datatype End = Goes | Halted | Raised

  /** What a stretch of a batch does and leaves: its effects, the ids then in view, its results, and whether the
      batch goes on. */
  datatype Stretch = Stretch(events: seq<Event>, applied: seq<Id>, results: seq<Result>, end: End)

  predicate PassedOver(applied: seq<Id>, m: Migration, batch: Batch) {
    (batch.only.Some? && m.id != batch.only.value) || (m.id in applied && !m.advisory)
  }

  /** A run that ends the batch with an exception. */
  predicate Kills(batch: Batch, m: Migration) {
    || Overflows(BehaviourOf(batch, m))
    || (ErrorFree(BehaviourOf(batch, m)) && !m.advisory && m.id in batch.unwritable)
  }

  /** A failure that stops the batch. */
  predicate Halts(batch: Batch, m: Migration) {
    !ErrorFree(BehaviourOf(batch, m)) && (m.stopOnFailure || batch.failFast)
  }

  function RunTurn(applied: seq<Id>, m: Migration, batch: Batch): Stretch {
    var clean := ErrorFree(BehaviourOf(batch, m));
    var ran := [Ran(m, clean)];
    if Kills(batch, m) then Stretch(ran, applied, [], Raised)
    else if !clean then
      var spared := m.advisory && !Halts(batch, m);
      Stretch(ran, applied, [Result(m.id, spared, true, spared)], if Halts(batch, m) then Halted else Goes)
    else if m.advisory then Stretch(ran, applied, [Result(m.id, true, true, false)], Goes)
    else
      var now := applied + [m.id];
      Stretch(ran + [Wrote(now)], now, [Result(m.id, true, true, false)], Goes)
  }

  function Turn(applied: seq<Id>, m: Migration, batch: Batch): Stretch {
    if PassedOver(applied, m, batch) then Stretch([], applied, [], Goes)
    else if batch.dryRun then Stretch([], applied, [Result(m.id, true, false, false)], Goes)
    else RunTurn(applied, m, batch)
  }

  function Onto(events: seq<Event>, results: seq<Result>, t: Stretch): Stretch {
    t.(events := events + t.events, results := results + t.results)
  }

  function Run(ms: seq<Migration>, applied: seq<Id>, batch: Batch): Stretch {
    if ms == [] then Stretch([], applied, [], Goes)
    else
      var t := Turn(applied, ms[0], batch);
      if t.end.Goes? then Onto(t.events, t.results, Run(ms[1..], t.applied, batch)) else t
  }

  /** load, with the sentinel shim. */
  function Loading(w: World, batch: Batch): Stretch {
    var view := View(w.disk);
    if w.disk.kind.FailsToLoad? then Stretch([], view, [], Raised)
    else if !w.sentinel then Stretch([], view, [], Goes)
    else if LEGACY in view then Stretch(if batch.unlinks then [Unlinked] else [], view, [], Goes)
    else if !batch.shimWrites then Stretch([], view, [], Raised)
    else
      var now := view + [LEGACY];
      Stretch(if batch.unlinks then [Wrote(now), Unlinked] else [Wrote(now)], now, [], Goes)
  }

  predicate Selected(m: Migration, batch: Batch) {
    batch.only.Some? ==> m.id == batch.only.value
  }

  /** Some migration is looked up. */
  predicate AnySelected(ms: seq<Migration>, batch: Batch) {
    exists i :: 0 <= i < |ms| && Selected(ms[i], batch)
  }

  function WholeBatch(ms: seq<Migration>, w: World, batch: Batch): Stretch {
    if batch.skipped then Stretch([], View(w.disk), [], Goes)
    else
      var loaded := Loading(w, batch);
      if loaded.end.Raised? then loaded
      else if w.disk.kind.FailsToLook? then loaded.(end := if AnySelected(ms, batch) then Raised else Goes)
      else Onto(loaded.events, [], Run(ms, loaded.applied, batch))
  }

  /** What a required migration that is neither recorded nor passed over comes to, by its summary: a count of zero or
      less is recorded, if the ledger can be written; a positive one, and a run that gives no count, is not, and
      shows as failed; an infinite one raises. */
  lemma RequiredTurn(applied: seq<Id>, m: Migration, batch: Batch, b: Behaviour)
    requires !m.advisory && m.id !in applied && !batch.dryRun && (batch.only.None? || batch.only.value == m.id)
    requires m.id in batch.behaviours && batch.behaviours[m.id] == b
    ensures var t := Turn(applied, m, batch);
      match b
      case Summary(true, Count(n)) =>
        if n > 0 then Fails(t, applied, m, batch)
        else if m.id in batch.unwritable then t == Stretch([Ran(m, true)], applied, [], Raised)
        else
          var now := applied + [m.id];
          t == Stretch([Ran(m, true), Wrote(now)], now, [Result(m.id, true, true, false)], Goes)
      case Summary(true, Infinite) => t == Stretch([Ran(m, false)], applied, [], Raised)
      case Summary(true, NotANumber) => Fails(t, applied, m, batch)
      case Summary(false, _) => Fails(t, applied, m, batch)
      case NoSummary => Fails(t, applied, m, batch)
      case Raises => Fails(t, applied, m, batch)
  {
  }

  /** The turn shows a failure, and records nothing. */
  predicate Fails(t: Stretch, applied: seq<Id>, m: Migration, batch: Batch) {
    && t.events == [Ran(m, false)] && t.applied == applied && t.results == [Result(m.id, false, true, false)]
    && t.end == if m.stopOnFailure || batch.failFast then Halted else Goes
  }

  /** The same of an advisory one, recorded or not: nothing is written, and only under fail-fast does a positive
      count show. */
  lemma AdvisoryTurnIs(applied: seq<Id>, m: Migration, batch: Batch, n: int)
    requires m.advisory && !m.stopOnFailure && !batch.dryRun && (batch.only.None? || batch.only.value == m.id)
    requires m.id in batch.behaviours && batch.behaviours[m.id] == Summary(true, Count(n))
    ensures var t := Turn(applied, m, batch);
      && t.events == [Ran(m, n <= 0)] && t.applied == applied
      && t.results == (if n <= 0 then [Result(m.id, true, true, false)]
                       else [Result(m.id, !batch.failFast, true, !batch.failFast)])
      && t.end == if n > 0 && batch.failFast then Halted else Goes
  {
  }

  /** A migration that was not asked for, or is required and recorded, has no turn and no result; under dry run every
      other one is listed and not run. */
  lemma IdleTurn(applied: seq<Id>, m: Migration, batch: Batch)
    ensures (batch.only.Some? && batch.only.value != m.id) || (!m.advisory && m.id in applied) ==>
      Turn(applied, m, batch) == Stretch([], applied, [], Goes)
    ensures batch.dryRun && (batch.only.None? || batch.only.value == m.id) && (m.advisory || m.id !in applied) ==>
      Turn(applied, m, batch) == Stretch([], applied, [Result(m.id, true, false, false)], Goes)
  {
  }

  /** A ledger whose lookups raise ends a batch exactly when one is made: for any migration, or the one asked for. */
  lemma LookupRaisesIff(ms: seq<Migration>, w: World, batch: Batch)
    requires w.disk.kind.FailsToLook? && !w.sentinel && !batch.skipped
    ensures WholeBatch(ms, w, batch).end.Raised? <==>
      if batch.only.None? then ms != [] else exists i :: 0 <= i < |ms| && ms[i].id == batch.only.value
    ensures WholeBatch(ms, w, batch).events == []
  {
    if ms != [] && batch.only.None? {
      assert Selected(ms[0], batch);
    }
    if i :| 0 <= i < |ms| && batch.only.Some? && ms[i].id == batch.only.value {
      assert Selected(ms[i], batch);
    }
  }

  /** The sentinel of the program's earlier releases stands for one migration, which a load records. */
  lemma SentinelIsRecorded(w: World, batch: Batch)
    requires w.sentinel && w.disk.kind.Sound? && "0001_namespace_catalog_volumes" !in w.disk.ids && batch.shimWrites
    ensures Loading(w, batch).applied == w.disk.ids + ["0001_namespace_catalog_volumes"]
    ensures Loading(w, batch).events ==
      [Wrote(w.disk.ids + ["0001_namespace_catalog_volumes"])] + if batch.unlinks then [Unlinked] else []
  {
  }

  /** A batch halts exactly when a migration ran and failed, with a count or without, that stops the rest. */
  lemma {:induction false} HaltedIff(ms: seq<Migration>, applied: seq<Id>, batch: Batch)
    ensures Run(ms, applied, batch).end.Halted? <==>
      exists m :: Ran(m, false) in Run(ms, applied, batch).events && Stops(m, batch)
  {
    hide ErrorFree, BehaviourOf, Turn, Stops;
    if ms != [] {
      var t := Turn(applied, ms[0], batch);
      TurnHaltedIff(applied, ms[0], batch);
      if t.end.Goes? {
        var more := Run(ms[1..], t.applied, batch);
        HaltedIff(ms[1..], t.applied, batch);
        assert Run(ms, applied, batch).events == t.events + more.events;
        if m :| Ran(m, false) in more.events && Stops(m, batch) {
          assert Ran(m, false) in t.events + more.events;
        }
      } else {
        assert Run(ms, applied, batch) == t;
      }
    }
  }

  /** The migration may stop the rest of the batch; an infinite count does not, it raises. */
  predicate Stops(m: Migration, batch: Batch) {
    (m.stopOnFailure || batch.failFast) && GetOr(batch.behaviours, m.id, Raises) != Summary(true, Infinite)
  }

  lemma TurnHaltedIff(applied: seq<Id>, h: Migration, batch: Batch)
    ensures var t := Turn(applied, h, batch);
      && (t.end.Halted? <==> Ran(h, false) in t.events && Stops(h, batch))
      && forall m :: m != h ==> Ran(m, false) !in t.events
  {
    hide PassedOver;
  }

  // ---- What a batch promises -------------------------------------------------------------------

  predicate Full(batch: Batch) {
    batch.only.None? && !batch.dryRun && !batch.skipped
  }

  predicate AllOk(results: seq<Result>) {
    forall i :: 0 <= i < |results| ==> results[i].ok
  }

  /** The ids of the required migrations are all recorded. */
  predicate AllRecorded(ms: seq<Migration>, ids: seq<Id>) {
    forall i :: 0 <= i < |ms| ==> ms[i].advisory || ms[i].id in ids
  }

  lemma AllOkJoins(a: seq<Result>, b: seq<Result>)
    ensures AllOk(a + b) <==> AllOk(a) && AllOk(b)
  {
    assert forall i :: 0 <= i < |a| ==> (a + b)[i] == a[i];
    assert forall i :: 0 <= i < |b| ==> (a + b)[|a| + i] == b[i];
  }

  lemma TurnRecords(applied: seq<Id>, m: Migration, batch: Batch)
    ensures var t := Turn(applied, m, batch);
      && applied <= t.applied && (t.end.Halted? ==> !AllOk(t.results))
      && (Full(batch) && t.end.Goes? && AllOk(t.results) ==> m.advisory || m.id in t.applied)
  {
    hide ErrorFree, BehaviourOf;
    var t := Turn(applied, m, batch);
    assert t.results != [] && !t.results[0].ok ==> !AllOk(t.results);
  }

  lemma {:induction false} RunRecords(ms: seq<Migration>, applied: seq<Id>, batch: Batch)
    ensures var t := Run(ms, applied, batch);
      && applied <= t.applied
      && (Full(batch) && !t.end.Raised? && AllOk(t.results) ==> AllRecorded(ms, t.applied))
  {
    hide Turn, AllOk, Full;
    if ms != [] {
      var t := Turn(applied, ms[0], batch);
      TurnRecords(applied, ms[0], batch);
      if t.end.Goes? {
        RunRecords(ms[1..], t.applied, batch);
        AllOkJoins(t.results, Run(ms[1..], t.applied, batch).results);
        assert forall i :: 0 < i < |ms| ==> ms[i] == ms[1..][i - 1];
        assert forall id :: id in t.applied ==> id in Run(ms, applied, batch).applied;
      }
    }
  }

  /** A full batch that ends without an exception and with nothing but ok results has recorded every required
      migration. */
  lemma OkMeansRecorded(ms: seq<Migration>, w: World, batch: Batch)
    requires var t := WholeBatch(ms, w, batch); Full(batch) && !t.end.Raised? && AllOk(t.results)
    ensures AllRecorded(ms, WholeBatch(ms, w, batch).applied)
  {
    hide Run, Loading, AllOk;
    var loaded := Loading(w, batch);
    RunRecords(ms, loaded.applied, batch);
    assert [] + Run(ms, loaded.applied, batch).results == Run(ms, loaded.applied, batch).results;
  }

  ghost predicate ShowsFailure(results: seq<Result>, id: Id) {
    exists r :: r in results && r.id == id && !r.ok
  }

  lemma {:induction false} RunMentions(ms: seq<Migration>, applied: seq<Id>, batch: Batch, m: Migration)
    requires forall i :: 0 <= i < |ms| ==> ms[i].id != m.id
    ensures var t := Run(ms, applied, batch);
      !ShowsFailure(t.results, m.id) && Ran(m, true) !in t.events && Ran(m, false) !in t.events
  {
    hide ErrorFree, BehaviourOf, Kills, Halts;
    if ms != [] {
      var t := Turn(applied, ms[0], batch);
      if t.end.Goes? {
        RunMentions(ms[1..], t.applied, batch, m);
      }
    }
  }

  lemma ShowsEither(a: seq<Result>, b: seq<Result>, id: Id)
    ensures ShowsFailure(a + b, id) <==> ShowsFailure(a, id) || ShowsFailure(b, id)
  {
  }

  /** What one turn shows: of its own migration, and of any other. */
  lemma TurnShowsIff(applied: seq<Id>, h: Migration, batch: Batch)
    requires !(h.advisory && h.stopOnFailure)
    ensures var t := Turn(applied, h, batch);
      && (!t.end.Raised? ==>
            (ShowsFailure(t.results, h.id) <==> Ran(h, false) in t.events && (h.advisory ==> batch.failFast)))
      && forall m: Migration :: m.id != h.id ==>
           !ShowsFailure(t.results, m.id) && Ran(m, true) !in t.events && Ran(m, false) !in t.events
  {
    hide ErrorFree, BehaviourOf, PassedOver;
    var t := Turn(applied, h, batch);
    if t.results != [] && !t.results[0].ok {
      assert t.results[0] in t.results;
    }
  }

  /** The results of a batch that ended without an exception show a migration as failed exactly when it ran and
      failed, an advisory one only under fail-fast. */
  lemma {:induction false} FailureShownIff(ms: seq<Migration>, applied: seq<Id>, batch: Batch, m: Migration)
    requires Registered(ms) && m in ms && !Run(ms, applied, batch).end.Raised?
    ensures var t := Run(ms, applied, batch);
      ShowsFailure(t.results, m.id) <==> Ran(m, false) in t.events && (m.advisory ==> batch.failFast)
  {
    hide ErrorFree, BehaviourOf, Turn, Registered, ShowsFailure;
    var h, rest := ms[0], ms[1..];
    var t := Turn(applied, h, batch);
    RegisteredRest(ms);
    TurnShowsIff(applied, h, batch);
    if t.end.Goes? {
      ShowsEither(t.results, Run(rest, t.applied, batch).results, m.id);
      if h == m {
        RunMentions(rest, t.applied, batch, m);
      } else {
        assert m in rest;
        FailureShownIff(rest, t.applied, batch, m);
      }
    }
  }

  lemma RegisteredRest(ms: seq<Migration>)
    requires Registered(ms) && ms != []
    ensures Registered(ms[1..]) && !(ms[0].advisory && ms[0].stopOnFailure)
    ensures forall i :: 0 <= i < |ms[1..]| ==> ms[1..][i].id != ms[0].id
    ensures forall m :: m in ms[1..] ==> m.id != ms[0].id
  {
  }

  /** A run ends with an exception exactly when a migration ran whose error count is infinite, or that is required,
      ran without error and could not be recorded. */
  lemma {:induction false} RaisedIff(ms: seq<Migration>, applied: seq<Id>, batch: Batch)
    ensures Run(ms, applied, batch).end.Raised? <==>
      exists m :: Kills(batch, m) && HasRun(m, batch, Run(ms, applied, batch).events)
  {
    hide ErrorFree, BehaviourOf, Kills, Turn, HasRun;
    if ms != [] {
      var h, rest := ms[0], ms[1..];
      var t := Turn(applied, h, batch);
      TurnRaisedIff(applied, h, batch);
      if t.end.Goes? {
        var more := Run(rest, t.applied, batch);
        RaisedIff(rest, t.applied, batch);
        assert Run(ms, applied, batch).events == t.events + more.events;
        if m :| Kills(batch, m) && HasRun(m, batch, more.events) {
          RunsJoin(m, batch, t.events, more.events);
        }
        if m :| Kills(batch, m) && HasRun(m, batch, t.events + more.events) {
          RunsJoin(m, batch, t.events, more.events);
        }
      } else {
        assert Run(ms, applied, batch) == t;
      }
    } else {
      NothingHasRun(batch);
    }
  }

  predicate HasRun(m: Migration, batch: Batch, events: seq<Event>) {
    Ran(m, ErrorFree(BehaviourOf(batch, m))) in events
  }

  lemma RunsJoin(m: Migration, batch: Batch, a: seq<Event>, b: seq<Event>)
    ensures HasRun(m, batch, a + b) <==> HasRun(m, batch, a) || HasRun(m, batch, b)
  {
  }

  lemma NothingHasRun(batch: Batch)
    ensures forall m :: !HasRun(m, batch, [])
  {
  }

  lemma TurnRaisedIff(applied: seq<Id>, h: Migration, batch: Batch)
    ensures var t := Turn(applied, h, batch);
      && (t.end.Raised? <==> Kills(batch, h) && HasRun(h, batch, t.events))
      && forall m :: m != h ==> !HasRun(m, batch, t.events)
  {
    hide ErrorFree, BehaviourOf, Kills, PassedOver;
  }

  /** An advisory migration is there so that its failure does not stop a boot. It ends the batch with an exception
      all the same exactly when it gets its turn and its error count is infinite. */
  lemma AdvisoryRaisesIff(applied: seq<Id>, m: Migration, batch: Batch)
    requires m.advisory
    ensures Turn(applied, m, batch).end.Raised? <==>
      (batch.only.Some? ==> m.id == batch.only.value) && !batch.dryRun && Overflows(BehaviourOf(batch, m))
  {
    hide ErrorFree, Overflows, BehaviourOf;
  }

  /** At boot, with every registered migration advisory and the sentinel's word taken care of, the batch stops
      exactly when one of them has an infinite error count; otherwise every result is ok. */
  lemma {:induction false} AdvisoryBootIff(ms: seq<Migration>, applied: seq<Id>, batch: Batch)
    requires Registered(ms) && Full(batch) && !batch.failFast
    requires forall i :: 0 <= i < |ms| ==> ms[i].advisory
    ensures var t := Run(ms, applied, batch);
      && !t.end.Halted? && AllOk(t.results)
      && (t.end.Raised? <==> exists i :: 0 <= i < |ms| && Overflows(BehaviourOf(batch, ms[i])))
  {
    hide ErrorFree, Overflows, BehaviourOf, Registered, AllOk;
    if ms == [] {
      NothingOk();
    } else {
      var h, rest := ms[0], ms[1..];
      var t := Turn(applied, h, batch);
      RegisteredRest(ms);
      AdvisoryTurn(applied, h, batch);
      assert forall i :: 0 < i < |ms| ==> ms[i] == rest[i - 1];
      if t.end.Goes? {
        AdvisoryBootIff(rest, t.applied, batch);
        AllOkJoins(t.results, Run(rest, t.applied, batch).results);
        if i :| 0 <= i < |rest| && Overflows(BehaviourOf(batch, rest[i])) {
          assert ms[i + 1] == rest[i];
        }
      }
    }
  }

  lemma NothingOk()
    ensures AllOk([])
  {
  }

  lemma AdvisoryTurn(applied: seq<Id>, m: Migration, batch: Batch)
    requires m.advisory && !m.stopOnFailure && Full(batch) && !batch.failFast
    ensures var t := Turn(applied, m, batch);
      !t.end.Halted? && AllOk(t.results) && (t.end.Raised? <==> Overflows(BehaviourOf(batch, m)))
  {
    hide ErrorFree, Overflows, BehaviourOf;
  }

  /** Of the migrations, each at most once and in their order. */
  ghost predicate RanInOrder(ms: seq<Migration>, log: seq<Event>) {
    && (forall a :: 0 <= a < |log| && log[a].Ran? ==> log[a].migration in ms)
    && (forall a, b :: 0 <= a < b < |log| && log[a].Ran? && log[b].Ran? ==>
          Precedes(ms, log[a].migration, log[b].migration))
  }

  ghost predicate Precedes(ms: seq<Migration>, m: Migration, n: Migration) {
    exists p, q :: 0 <= p < q < |ms| && ms[p] == m && ms[q] == n
  }

  lemma PrecedesRest(ms: seq<Migration>, m: Migration, n: Migration)
    requires ms != []
    ensures Precedes(ms[1..], m, n) ==> Precedes(ms, m, n)
    ensures m == ms[0] && n in ms[1..] ==> Precedes(ms, m, n)
  {
    if p, q :| 0 <= p < q < |ms[1..]| && ms[1..][p] == m && ms[1..][q] == n {
      assert ms[p + 1] == m && ms[q + 1] == n;
    }
    if q :| 0 <= q < |ms[1..]| && ms[1..][q] == n {
      assert ms[q + 1] == n;
    }
  }

  lemma OneBefore(ms: seq<Migration>, first: seq<Event>, rest: seq<Event>)
    requires ms != [] && RanInOrder(ms[1..], rest)
    requires forall a :: 0 <= a < |first| && first[a].Ran? ==> a == 0 && first[0].migration == ms[0]
    ensures RanInOrder(ms, first + rest)
  {
    hide Precedes;
    var log := first + rest;
    forall a | 0 <= a < |log| && log[a].Ran? ensures log[a].migration in ms {
      if a >= |first| {
        assert log[a] == rest[a - |first|];
      }
    }
    forall a, b | 0 <= a < b < |log| && log[a].Ran? && log[b].Ran?
      ensures Precedes(ms, log[a].migration, log[b].migration)
    {
      PrecedesRest(ms, log[a].migration, log[b].migration);
      assert log[b] == rest[b - |first|];
      if a >= |first| {
        assert log[a] == rest[a - |first|];
      }
    }
  }

  lemma {:induction false} RunInOrder(ms: seq<Migration>, applied: seq<Id>, batch: Batch)
    ensures RanInOrder(ms, Run(ms, applied, batch).events)
  {
    hide RanInOrder, ErrorFree, BehaviourOf, Kills, Halts;
    if ms == [] {
      NothingInOrder(ms);
    } else {
      var t := Turn(applied, ms[0], batch);
      if t.end.Goes? {
        RunInOrder(ms[1..], t.applied, batch);
        OneBefore(ms, t.events, Run(ms[1..], t.applied, batch).events);
      } else {
        NothingInOrder(ms[1..]);
        OneBefore(ms, t.events, []);
        assert t.events + [] == t.events;
      }
    }
  }

  lemma NothingInOrder(ms: seq<Migration>)
    ensures RanInOrder(ms, [])
  {
  }

  predicate NoRuns(log: seq<Event>) {
    forall i :: 0 <= i < |log| ==> !log[i].Ran?
  }

  lemma QuietBefore(ms: seq<Migration>, first: seq<Event>, rest: seq<Event>)
    requires RanInOrder(ms, rest) && NoRuns(first)
    ensures RanInOrder(ms, first + rest)
  {
    hide Precedes;
    var log := first + rest;
    forall a | 0 <= a < |log| && log[a].Ran? ensures a >= |first| && log[a] == rest[a - |first|] {
    }
  }

  /** The migrations of a batch run in their order, each at most once; none under dry run or skip. */
  lemma BatchInOrder(ms: seq<Migration>, w: World, batch: Batch)
    ensures RanInOrder(ms, WholeBatch(ms, w, batch).events)
    ensures batch.skipped || batch.dryRun ==> NoRuns(WholeBatch(ms, w, batch).events)
  {
    hide RanInOrder, Run;
    var loaded := Loading(w, batch);
    assert NoRuns(loaded.events);
    NothingInOrder(ms);
    QuietBefore(ms, loaded.events, []);
    assert loaded.events + [] == loaded.events;
    RunInOrder(ms, loaded.applied, batch);
    QuietBefore(ms, loaded.events, Run(ms, loaded.applied, batch).events);
    if batch.dryRun {
      DryRunsNothing(ms, loaded.applied, batch);
    }
  }

  lemma {:induction false} DryRunsNothing(ms: seq<Migration>, applied: seq<Id>, batch: Batch)
    requires batch.dryRun
    ensures Run(ms, applied, batch).events == []
  {
    if ms != [] {
      DryRunsNothing(ms[1..], Turn(applied, ms[0], batch).applied, batch);
    }
  }

  lemma ShimIsLegal(w: World)
    requires w.sentinel && !w.disk.kind.FailsToLoad?
    ensures Legal(w, Wrote(View(w.disk) + [LEGACY]))
    ensures var disk := Apply(w, Wrote(View(w.disk) + [LEGACY])).disk;
      && disk.ids == View(w.disk) + [LEGACY] == View(disk)
      && !disk.kind.FailsToLoad? && (disk.kind.FailsToLook? <==> w.disk.kind.FailsToLook?)
  {
  }

  lemma UnlinkIsLegal(w: World)
    requires LEGACY in View(w.disk) && !w.disk.kind.FailsToLoad?
    ensures Legal(w, Unlinked) && Apply(w, Unlinked).disk == w.disk
  {
  }

  // ---- The ledger object -----------------------------------------------------------------------

  class Ledger {
    const start: World
    var world: World
    var log: seq<Event>
    var applied: seq<Id>    // _data["applied"], in memory

    ghost predicate Valid()
      reads this
    {
      Proper(start, log) && world == After(start, log)
    }

    /** The memory and the file agree. */
    ghost predicate Synced()
      reads this
    {
      Valid() && applied == View(world.disk)
    }

    method Emit(e: Event)
      requires Valid() && Legal(world, e)
      modifies this`world, this`log
      ensures Valid() && world == Apply(old(world), e) && log == old(log) + [e]
    {
      LogGrows(start, log, e);
      world, log := Apply(world, e), log + [e];
    }

    constructor (w: World)
      ensures start == w && world == w && log == [] && Synced()
    {
      start, world, log, applied := w, w, [], View(w.disk);
    }

    /** load, with the sentinel shim; false is a write that raised, out of load. */
    method Load(batch: Batch) returns (ok: bool)
      requires Valid() && log == [] && world == start
      modifies this
      ensures Valid() && log == Loading(start, batch).events && ok == !Loading(start, batch).end.Raised?
      ensures ok ==> Synced() && applied == Loading(start, batch).applied && Loading(start, batch).results == []
      ensures ok ==> start.sentinel ==> LEGACY in applied
      ensures ok ==> !world.disk.kind.FailsToLoad? && (world.disk.kind.FailsToLook? <==> start.disk.kind.FailsToLook?)
    {
      hide Proper, After, Legal, Apply, View;
      applied := View(world.disk);
      if world.disk.kind.FailsToLoad? {
        return false;
      }
      if !world.sentinel {
        return true;
      }
      if LEGACY !in applied {
        applied := applied + [LEGACY];
        if !batch.shimWrites {
          return false;
        }
        ShimIsLegal(world);
        Emit(Wrote(applied));
        assert log == [Wrote(applied)];
      }
      if batch.unlinks {
        UnlinkIsLegal(world);
        Emit(Unlinked);
      }
      return true;
    }

    /** mark_applied; false is a write that raised. */
    method MarkApplied(id: Id, writes: bool) returns (ok: bool)
      requires Synced() && id in world.clean && (world.disk.kind.Sound? || world.disk.kind.Unreadable?)
      modifies this
      ensures Valid() && ok == (id in old(applied) || writes)
      ensures world.disk.kind.Sound? || world.disk.kind.Unreadable?
      ensures ok ==> Synced() && applied == if id in old(applied) then old(applied) else old(applied) + [id]
      ensures log == old(log) + if ok && id !in old(applied) then [Wrote(applied)] else []
    {
      hide Proper, After;
      if id in applied {
        return true;
      }
      applied := applied + [id];
      if !writes {
        return false;
      }
      Emit(Wrote(applied));
      return true;
    }

    /** _run_single; None is an exception, which ends the batch: of the conversion of an infinite error count, or of
        the ledger write. */
    method RunSingle(m: Migration, b: Behaviour, writes: bool) returns (r: Option<Result>)
      requires Synced() && (m.advisory || m.id !in applied)
      requires world.disk.kind.Sound? || world.disk.kind.Unreadable?
      modifies this
      ensures Valid()
      ensures world.disk.kind.Sound? || world.disk.kind.Unreadable?
      ensures r.None? <==> Overflows(b) || (ErrorFree(b) && !m.advisory && !writes)
      ensures r.Some? ==> Synced() && r.value == Result(m.id, ErrorFree(b), true, false)
      ensures r.Some? ==> applied == if ErrorFree(b) && !m.advisory then old(applied) + [m.id] else old(applied)
      ensures log == old(log) +
        if r.Some? && ErrorFree(b) && !m.advisory then [Ran(m, true)] + [Wrote(applied)] else [Ran(m, ErrorFree(b))]
    {
      hide Proper, After;
      Emit(Ran(m, ErrorFree(b)));
      if b.Raises? || b.NoSummary? {
        return Some(Result(m.id, false, true, false));
      }
      if !b.backupsIterable {
        return Some(Result(m.id, false, true, false));
      }
      if b.errors.NotANumber? {
        return Some(Result(m.id, false, true, false));
      }
      if b.errors.Infinite? {
        return None;
      }
      if b.errors.n > 0 {
        return Some(Result(m.id, false, true, false));
      }
      if m.advisory {
        return Some(Result(m.id, true, true, false));
      }
      var ok := MarkApplied(m.id, writes);
      if !ok {
        return None;
      }
      Assoc(old(log), [Ran(m, true)], [Wrote(applied)]);
      return Some(Result(m.id, true, true, false));
    }
  }

  // ---- apply_pending ---------------------------------------------------------------------------

  lemma OntoTwice(e: seq<Event>, r: seq<Result>, f: seq<Event>, q: seq<Result>, t: Stretch)
    ensures Onto(e, r, Onto(f, q, t)) == Onto(e + f, r + q, t)
  {
    Assoc(e, f, t.events);
    Assoc(r, q, t.results);
  }

  /** One turn of the loop. */
  lemma RunStep(events: seq<Event>, results: seq<Result>, ms: seq<Migration>, i: nat, applied: seq<Id>, batch: Batch)
    requires i < |ms|
    ensures var t := Turn(applied, ms[i], batch);
      Onto(events, results, Run(ms[i..], applied, batch)) ==
        if t.end.Goes? then Onto(events + t.events, results + t.results, Run(ms[i + 1..], t.applied, batch))
        else Onto(events, results, t)
  {
    hide Turn, Onto;
    var t := Turn(applied, ms[i], batch);
    assert ms[i..][0] == ms[i] && ms[i..][1..] == ms[i + 1..];
    OntoTwice(events, results, t.events, t.results, Run(ms[i + 1..], t.applied, batch));
  }

  lemma RunDone(events: seq<Event>, results: seq<Result>, ms: seq<Migration>, applied: seq<Id>, batch: Batch)
    ensures Onto(events, results, Run(ms[|ms|..], applied, batch)) == Stretch(events, applied, results, Goes)
  {
    assert events + [] == events && results + [] == results;
  }

  /** apply_pending does what the functions say. `raised` is an exception, and then there are no results; otherwise
      the ledger file holds the ids in view. */
  method ApplyPending(ms: seq<Migration>, w: World, batch: Batch)
    returns (results: seq<Result>, log: seq<Event>, raised: bool)
    ensures Proper(w, log)
    ensures var t := WholeBatch(ms, w, batch);
      && log == t.events && (raised <==> t.end.Raised?)
      && (!raised ==> results == t.results && View(After(w, log).disk) == t.applied)
  {
    hide Proper, After, Legal, ErrorFree, Overflows, BehaviourOf, Run, Onto, Loading;
    results, log, raised := [], [], false;
    EmptyHistory(w);
    if batch.skipped {
      return;
    }
    var ledger := new Ledger(w);
    var loaded := ledger.Load(batch);
    if !loaded {
      return results, ledger.log, true;
    }
    if w.disk.kind.FailsToLook? {
      var looked := LooksUp(ms, batch);
      return results, ledger.log, looked;
    }
    ghost var whole := WholeBatch(ms, w, batch);
    assert ms[0..] == ms;
    for i := 0 to |ms|
      invariant ledger.start == w && ledger.Synced()
      invariant ledger.world.disk.kind.Sound? || ledger.world.disk.kind.Unreadable?
      invariant whole == Onto(ledger.log, results, Run(ms[i..], ledger.applied, batch))
    {
      var m := ms[i];
      RunStep(ledger.log, results, ms, i, ledger.applied, batch);
      if batch.only.Some? && m.id != batch.only.value {
        KeepsAll(ledger.log, results);
        continue;
      }
      if m.id in ledger.applied && !m.advisory {
        KeepsAll(ledger.log, results);
        continue;
      }
      if batch.dryRun {
        KeepsAll(ledger.log, results);
        results := results + [Result(m.id, true, false, false)];
        continue;
      }
      ghost var before, turn := ledger.log, Turn(ledger.applied, m, batch);
      var r := ledger.RunSingle(m, BehaviourOf(batch, m), m.id !in batch.unwritable);
      RaisedOnto(before, results, turn);
      if r.None? {
        return [], ledger.log, true;
      }
      var result := r.value;
      var reallyFailed := !result.ok;
      var halting := reallyFailed && (m.stopOnFailure || batch.failFast);
      if m.advisory && reallyFailed && !halting {
        result := result.(ok := true, advisoryFailed := true);
      }
      results := results + [result];
      if halting {
        return results, ledger.log, false;
      }
    }
    RunDone(ledger.log, results, ms, ledger.applied, batch);
    log := ledger.log;
  }

  /** The loop over a ledger whose lookups raise: whether it comes to one. */
  method LooksUp(ms: seq<Migration>, batch: Batch) returns (raised: bool)
    ensures raised <==> AnySelected(ms, batch)
  {
    for i := 0 to |ms|
      invariant forall j :: 0 <= j < i ==> !Selected(ms[j], batch)
    {
      if batch.only.Some? && ms[i].id != batch.only.value {
        continue;
      }
      assert Selected(ms[i], batch);
      return true;
    }
    return false;
  }

  lemma KeepsAll(log: seq<Event>, results: seq<Result>)
    ensures log + [] == log && results + [] == results
  {
  }

  lemma RaisedOnto(log: seq<Event>, results: seq<Result>, t: Stretch)
    ensures var all := Onto(log, results, t);
      all.events == log + t.events && all.results == results + t.results && all.applied == t.applied && all.end == t.end
  {
  }

  lemma EmptyHistory(w: World)
    ensures Proper(w, []) && After(w, []) == w
  {
  }

  // ---- Many batches --------------------------------------------------------------------------

  /** A batch, and the step of its log at which the process is killed. */
  datatype Attempt = Attempt(batch: Batch, killedAt: nat)

  function Upto(killedAt: nat, log: seq<Event>): (k: nat)
    ensures k <= |log|
  {
    if killedAt < |log| then killedAt else |log|
  }

  /** What is left of a batch killed at its step. */
  function Killed(ms: seq<Migration>, w: World, attempt: Attempt): seq<Event> {
    var log := WholeBatch(ms, w, attempt.batch).events;
    log[..Upto(attempt.killedAt, log)]
  }

  /** What all of them leave, each starting where the one before it was killed. */
  function History(ms: seq<Migration>, w: World, attempts: seq<Attempt>): seq<Event> {
    if attempts == [] then []
    else
      var n := |attempts| - 1;
      var before := History(ms, w, attempts[..n]);
      before + Killed(ms, After(w, before), attempts[n])
  }

  /** Any number of batches, each killed at any step, leave one proper history: all that holds of such histories
      holds across crashes and retries. */
  method RunBatches(ms: seq<Migration>, w: World, attempts: seq<Attempt>) returns (history: seq<Event>)
    ensures history == History(ms, w, attempts)
    ensures Proper(w, history) && Justified(w, After(w, history))
  {
    hide Proper, After, Legal, Justified, WholeBatch;
    history := [];
    EmptyHistory(w);
    for i := 0 to |attempts|
      invariant Proper(w, history) && history == History(ms, w, attempts[..i])
    {
      var from := After(w, history);
      var results, log, raised := ApplyPending(ms, from, attempts[i].batch);
      var k := Upto(attempts[i].killedAt, log);
      ProperPrefix(from, log, k);
      Join(w, history, log[..k]);
      history := history + log[..k];
      assert attempts[..i + 1][..i] == attempts[..i];
    }
    assert attempts[..|attempts|] == attempts;
    EverythingRecordedIsJustified(w, history);
  }
}
