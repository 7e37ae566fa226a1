/**
 Restore in place: stop, safety snapshot, rollback note, overwrite, databases,
 and the obligations of its finally block.

 World is one instance as docker, restic, the state file and the manager see it;
 Legal says which effect is allowed in which World, and Recoverable what every
 World on the way must keep. The job's methods then have to fit inside those.
 */
module Restore {
  import opened Values
  import opened Mounts

  type Service = string
  type SnapshotId = string
  type Contents = map<Volume, string>

  datatype Status = Failed | Overwriting | Success

  /** A restore-result body, and what is written to the state file. */
  datatype Payload = Payload(status: Status, code: string, safety: Option<SnapshotId>, alreadyRunning: bool)

  /** The state file of a restore. It is written in place: opening it to write empties it first. */
  datatype StateFile = Missing | Torn | Holds(payload: Payload)

  /** What a write of it comes to: the file could not be opened, or was emptied and the write failed, or all of it. */
  datatype Writing = NotOpened | CutOff | Through

  function FileAfter(file: StateFile, body: Payload, writing: Writing): StateFile {
    match writing
    case NotOpened => file
    case CutOff => Torn
    case Through => Holds(body)
  }

  predicate Restored(p: Payload) {
    p.status.Success?
  }

  /** The one result on which the manager chains a start. */
  predicate StartFollows(p: Payload) {
    Restored(p) && !p.alreadyRunning
  }

  datatype Run =
    | Up
    | Down
    | Partial     // some containers run and some do not
    | Absent      // there are none
    | Unsettled   // a stop was issued and not seen to finish
    | Databases   // only the database services were started

  /** A safety snapshot: its restic id, and the id restic's summary reported ("" when it printed none). */
  datatype Snapshot = Snapshot(id: SnapshotId, reported: SnapshotId, contents: Contents)

  datatype World = World(
    run: Run,
    volumes: Contents,
    loaded: map<Service, SnapshotId>,   // database dumps replayed
    safety: seq<Snapshot>,              // oldest first
    noted: Option<Payload>,             // last body there was to write to the state file
    file: StateFile,
    locked: bool,                       // this job still holds the instance lock
    reserved: bool,
    sent: seq<Payload>,
    snapshotAwake: bool,                // a safety snapshot was taken while containers of the instance ran
    overwriteAwake: bool)               // a volume was overwritten while they did

  datatype Event =
    | StopIssued
    | Settled
    | Snapshotted(id: SnapshotId, reported: SnapshotId)
    | Noted(payload: Payload)   // a write of the state file begins
    | Truncated                 // opened, and empty
    | Stored                    // written to its end
    | Overwritten(written: Contents)
    | ServicesStarted(written: Contents)   // and what the databases write from then on
    | Loaded(service: Service, snapshot: SnapshotId)
    | RestartIssued(up: bool)
    | Forgot(keep: nat)
    | Reserved
    | Released
    | Called(payload: Payload)
    | NoteRemoved

  function Apply(w: World, e: Event): World {
    match e
    case StopIssued => w.(run := Unsettled)
    case Settled => w.(run := Down)
    case Snapshotted(id, reported) =>
      w.(safety := w.safety + [Snapshot(id, reported, w.volumes)],
         snapshotAwake := w.snapshotAwake || !AtRest(w.run))
    case Noted(payload) => w.(noted := Some(payload))
    case Truncated => w.(file := Torn)
    case Stored => w.(file := if w.noted.Some? then Holds(w.noted.value) else w.file)
    case Overwritten(written) =>
      w.(volumes := w.volumes + written, overwriteAwake := w.overwriteAwake || !AtRest(w.run))
    case ServicesStarted(written) => w.(run := Databases, volumes := w.volumes + written)
    case Loaded(service, snapshot) => w.(loaded := w.loaded[service := snapshot])
    case RestartIssued(up) => if up && !w.run.Unsettled? then w.(run := Up) else w
    case Forgot(keep) => if keep < |w.safety| then w.(safety := w.safety[|w.safety| - keep..]) else w
    case Reserved => w.(reserved := true)
    case Released => w.(locked := false)
    case Called(payload) => w.(sent := w.sent + [payload])
    case NoteRemoved => w.(file := Missing)
  }

  function After(start: World, log: seq<Event>): World {
    if log == [] then start else Apply(After(start, log[..|log| - 1]), log[|log| - 1])
  }

  // ---- The rules -------------------------------------------------------------------------

  /** What the job finds: it holds the lock, and this restore id has no history. */
  predicate Entry(start: World) {
    && start.locked && !start.reserved && start.sent == [] && start.loaded == map[]
    && start.noted.None? && start.file.Missing? && !start.snapshotAwake && !start.overwriteAwake
    && (start.run.Up? || start.run.Down? || start.run.Partial? || start.run.Absent?)
  }

  /** The newest safety snapshot holds what the volumes held at entry. */
  predicate HasRollback(start: World, w: World) {
    w.safety != [] && w.safety[|w.safety| - 1].contents == start.volumes
  }

  predicate Names(p: Payload, w: World) {
    w.safety != [] && p.safety == Some(w.safety[|w.safety| - 1].reported)
  }

  /** The last body for the state file names that snapshot, and so does what the file holds, if it holds one. */
  predicate NamesRollback(w: World) {
    w.noted.Some? && Names(w.noted.value, w) && (w.file.Holds? ==> Names(w.file.payload, w))
  }

  /** Nothing of the instance runs. */
  predicate AtRest(run: Run) {
    run.Down? || run.Absent?
  }

  predicate Quiet(start: World, w: World) {
    AtRest(w.run) || start.run.Partial?
  }

  /** In which World an effect is allowed; `barred` are the volumes docker shows behind a database service
      when the restore carries database dumps. */
  predicate Legal(start: World, barred: set<Volume>, w: World, e: Event) {
    match e
    case StopIssued => w.locked
    case Settled => w.locked && w.run.Unsettled?
    case Snapshotted(_, _) => w.locked && Quiet(start, w) && w.volumes == start.volumes
    case Noted(payload) => w.locked && !w.reserved && (payload.status.Overwriting? ==> w.volumes == start.volumes)
    case Truncated => w.locked && !w.reserved && w.noted.Some?
    case Stored => w.locked && !w.reserved && w.noted.Some? && w.file.Torn?
    case Overwritten(written) =>
      && w.locked && Quiet(start, w) && HasRollback(start, w) && NamesRollback(w)
      && written.Keys <= w.volumes.Keys && written.Keys !! barred
    case ServicesStarted(written) =>
      w.locked && Quiet(start, w) && HasRollback(start, w) && NamesRollback(w) && written.Keys <= barred
    case Loaded(_, _) => w.locked && w.run.Databases?
    case RestartIssued(_) => w.locked
    case Forgot(keep) => w.locked && keep > 0
    case Reserved => w.locked && w.noted.Some? && StartFollows(w.noted.value)
    case Released => w.locked && w.noted.Some? && (w.reserved <==> StartFollows(w.noted.value))
    case Called(payload) => !w.locked && w.sent == [] && w.noted == Some(payload)
    case NoteRemoved => w.sent != []
  }

  /** If the process stops here: the volumes are as they were, or the newest safety snapshot holds what they
      were, and no body names another. */
  predicate Recoverable(start: World, w: World) {
    w.volumes == start.volumes || (HasRollback(start, w) && NamesRollback(w))
  }

  /** Every effect was allowed when it came, and every World on the way was recoverable. */
  predicate Proper(start: World, barred: set<Volume>, log: seq<Event>) {
    && Recoverable(start, After(start, log))
    && (log == [] ||
        (var before := log[..|log| - 1];
         Proper(start, barred, before) && Legal(start, barred, After(start, before), log[|log| - 1])))
  }

  lemma {:induction false} ProperAtEveryStep(start: World, barred: set<Volume>, log: seq<Event>, k: nat)
    requires Proper(start, barred, log) && k <= |log|
    ensures Proper(start, barred, log[..k]) && Recoverable(start, After(start, log[..k]))
    ensures k < |log| ==> Legal(start, barred, After(start, log[..k]), log[k])
    decreases |log|
  {
    hide Legal, Recoverable;
    if k < |log| {
      var before := log[..|log| - 1];
      ProperAtEveryStep(start, barred, before, k);
      assert before[..k] == log[..k];
    } else {
      assert log[..k] == log;
    }
  }

  lemma LogGrows(start: World, barred: set<Volume>, log: seq<Event>, e: Event)
    ensures After(start, log + [e]) == Apply(After(start, log), e)
    ensures Proper(start, barred, log + [e]) <==>
      (Proper(start, barred, log) && Legal(start, barred, After(start, log), e)
       && Recoverable(start, Apply(After(start, log), e)))
  {
    assert (log + [e])[..|log|] == log;
  }

  predicate HoldsNothing(e: Event) {
    e.StopIssued? || e.Settled? || e.RestartIssued? || e.Reserved? || e.Released?
  }

  lemma KeepsData(w: World, e: Event)
    requires HoldsNothing(e)
    ensures var w' := Apply(w, e); w' == w.(run := w'.run, locked := w'.locked, reserved := w'.reserved)
  {
    hide AtRest;
  }

  /** Effects on the containers, the reservation and the lock leave what can be recovered alone. */
  lemma OnlyVolumesMatter(start: World, w: World, e: Event)
    requires HoldsNothing(e)
    ensures HasRollback(start, Apply(w, e)) == HasRollback(start, w) && NamesRollback(Apply(w, e)) == NamesRollback(w)
    ensures Recoverable(start, Apply(w, e)) == Recoverable(start, w)
  {
    hide Apply;
    KeepsData(w, e);
  }

  // ---- What the rules give -----------------------------------------------------------------

  predicate SameAtEntry(start: World, w: World, v: Volume) {
    (v in w.volumes <==> v in start.volumes) && (v in start.volumes ==> w.volumes[v] == start.volumes[v])
  }

  lemma StepSpares(start: World, barred: set<Volume>, w: World, e: Event, v: Volume)
    requires SameAtEntry(start, w, v) && Legal(start, barred, w, e) && v in barred && !e.ServicesStarted?
    ensures SameAtEntry(start, Apply(w, e), v)
  {
    hide HasRollback, NamesRollback, Quiet;
  }

  /** A volume behind a database is never overwritten from the data snapshot: until the database services
      are started it holds what it held at entry. */
  lemma {:induction false} DatabasesAreSpared(start: World, barred: set<Volume>, log: seq<Event>, v: Volume)
    requires Proper(start, barred, log) && v in barred
    requires forall e :: e in log ==> !e.ServicesStarted?
    ensures SameAtEntry(start, After(start, log), v)
    decreases |log|
  {
    hide Apply, Legal, Recoverable;
    if log != [] {
      var before, e := log[..|log| - 1], log[|log| - 1];
      assert e in log;
      DatabasesAreSpared(start, barred, before, v);
      StepSpares(start, barred, After(start, before), e, v);
    }
  }

  /** Of the lock, the reservation and the callback. */
  predicate Handed(w: World) {
    && |w.sent| <= 1 && (w.sent != [] ==> !w.locked && w.noted == Some(w.sent[0]))
    && (!w.locked ==> w.noted.Some? && (w.reserved <==> StartFollows(w.noted.value)))
    && (w.reserved ==> w.noted.Some? && StartFollows(w.noted.value))
  }

  lemma StepHands(start: World, barred: set<Volume>, w: World, e: Event)
    requires Handed(w) && Legal(start, barred, w, e)
    ensures Handed(Apply(w, e))
    ensures !w.locked ==> e.Called? || e.NoteRemoved?
    ensures Apply(w, e).locked <==> w.locked && !e.Released?
  {
  }

  /** The lock is held until the one Released, no effect on containers, volumes or the reservation comes
      after that, and the one callback only then; the reservation stands exactly for a start to follow. */
  lemma {:induction false} NothingAfterRelease(start: World, barred: set<Volume>, log: seq<Event>)
    requires Entry(start) && Proper(start, barred, log)
    ensures Handed(After(start, log))
    ensures After(start, log).locked <==> forall e :: e in log ==> !e.Released?
    ensures forall j, k :: 0 <= k < j < |log| && log[k].Released? ==> log[j].Called? || log[j].NoteRemoved?
    decreases |log|
  {
    hide Apply, Legal, Recoverable, Handed;
    if log != [] {
      var before, e := log[..|log| - 1], log[|log| - 1];
      assert log == before + [e];
      NothingAfterRelease(start, barred, before);
      StepHands(start, barred, After(start, before), e);
    } else {
      EntryIsHanded(start);
    }
  }

  lemma EntryIsHanded(start: World)
    requires Entry(start)
    ensures Handed(start) && start.locked
  {
  }

  // ---- Volumes in use ------------------------------------------------------------------------

  predicate AwakeAt(start: World, log: seq<Event>, k: nat) {
    k < |log| && !AtRest(After(start, log[..k]).run)
  }

  ghost predicate SnapshotWhileAwake(start: World, log: seq<Event>) {
    exists k: nat :: AwakeAt(start, log, k) && log[k].Snapshotted?
  }

  ghost predicate OverwriteWhileAwake(start: World, log: seq<Event>) {
    exists k: nat :: AwakeAt(start, log, k) && log[k].Overwritten?
  }

  lemma AwakeStep(w: World, e: Event)
    ensures Apply(w, e).snapshotAwake <==> w.snapshotAwake || (e.Snapshotted? && !AtRest(w.run))
    ensures Apply(w, e).overwriteAwake <==> w.overwriteAwake || (e.Overwritten? && !AtRest(w.run))
  {
    hide AtRest;
  }

  lemma AwakeBefore(start: World, log: seq<Event>, k: nat)
    requires k + 1 < |log|
    ensures AwakeAt(start, log[..|log| - 1], k) <==> AwakeAt(start, log, k)
    ensures log[..|log| - 1][k] == log[k]
  {
    hide After, AtRest;
    assert log[..|log| - 1][..k] == log[..k];
  }

  /** The two flags say that such an effect is in the history. */
  lemma {:induction false} AwakeIff(start: World, log: seq<Event>)
    requires Entry(start)
    ensures After(start, log).snapshotAwake <==> SnapshotWhileAwake(start, log)
    ensures After(start, log).overwriteAwake <==> OverwriteWhileAwake(start, log)
    decreases |log|
  {
    hide AtRest, Apply;
    if log != [] {
      var n := |log| - 1;
      var front := log[..n];
      AwakeIff(start, front);
      AwakeStep(After(start, front), log[n]);
      assert AwakeAt(start, log, n) <==> !AtRest(After(start, front).run);
      forall k: nat | k < n ensures AwakeAt(start, front, k) <==> AwakeAt(start, log, k) {
        AwakeBefore(start, log, k);
      }
    }
  }

  // ---- A crash, and the boot after it --------------------------------------------------------

  /** What a boot can read of the state file: nothing of an empty one. restore_status answers the same. */
  function Readable(file: StateFile): Option<Payload> {
    if file.Holds? then Some(file.payload) else None
  }

  /** reconcile_on_boot for one restore: a state file that can be read is posted again, and goes once acknowledged;
      one that cannot is passed over. */
  method RepostOnBoot(file: StateFile, acked: bool) returns (posted: seq<Payload>, left: StateFile)
    ensures posted == if Readable(file).Some? then [Readable(file).value] else []
    ensures left == if Readable(file).Some? && acked then Missing else file
  {
    posted, left := [], file;
    if file.Holds? {
      posted := [file.payload];
      if acked {
        left := Missing;
      }
    }
  }

  /** The next boot posts a body that names the newest safety snapshot. */
  predicate Reported(w: World) {
    Readable(w.file).Some? && Names(Readable(w.file).value, w)
  }

  /** The last thing that happened to the state file is a write that came to its end. */
  predicate LastWriteEnded(log: seq<Event>) {
    log != [] &&
    (var last := log[|log| - 1];
     last.Stored? || (!last.Truncated? && !last.NoteRemoved? && LastWriteEnded(log[..|log| - 1])))
  }

  lemma FileStep(w: World, e: Event)
    requires e.Stored? ==> w.noted.Some?
    ensures Apply(w, e).file.Holds? <==>
      e.Stored? || (!e.Truncated? && !e.NoteRemoved? && w.file.Holds?)
  {
    hide AtRest;
  }

  lemma {:induction false} HoldsIff(start: World, barred: set<Volume>, log: seq<Event>)
    requires Entry(start) && Proper(start, barred, log)
    ensures After(start, log).file.Holds? <==> LastWriteEnded(log)
    decreases |log|
  {
    hide Apply, Recoverable, AtRest, Quiet, HasRollback, NamesRollback;
    if log != [] {
      var n := |log| - 1;
      HoldsIff(start, barred, log[..n]);
      FileStep(After(start, log[..n]), log[n]);
    }
  }

  /** Killed at any step after the volumes changed: the newest safety snapshot holds them as they were, and the next
      boot names it exactly when the last write of the state file that was begun came to its end, and the file was
      not removed since. */
  lemma CrashIsReportedIff(start: World, barred: set<Volume>, log: seq<Event>, k: nat)
    requires Entry(start) && Proper(start, barred, log) && k <= |log|
    requires After(start, log[..k]).volumes != start.volumes
    ensures HasRollback(start, After(start, log[..k]))
    ensures Reported(After(start, log[..k])) <==> LastWriteEnded(log[..k])
    ensures Readable(After(start, log[..k]).file).Some? <==> LastWriteEnded(log[..k])
  {
    hide Proper, After, Legal, Entry, Names, HasRollback, LastWriteEnded;
    ProperAtEveryStep(start, barred, log, k);
    HoldsIff(start, barred, log[..k]);
  }

  predicate IsFileEvent(e: Event) {
    e.Noted? || e.Truncated? || e.Stored?
  }

  /** What a history does to the state file, removing it aside. */
  function FileEvents(log: seq<Event>): seq<Event> {
    if log == [] then []
    else
      var before, e := FileEvents(log[..|log| - 1]), log[|log| - 1];
      if IsFileEvent(e) then before + [e] else before
  }

  /** One write. */
  function WritingLog(body: Payload, writing: Writing): seq<Event> {
    match writing
    case NotOpened => [Noted(body)]
    case CutOff => [Noted(body), Truncated]
    case Through => [Noted(body), Truncated, Stored]
  }

  lemma {:induction false} EndedOfEvents(log: seq<Event>)
    requires forall e :: e in log ==> !e.NoteRemoved?
    ensures LastWriteEnded(log) <==> LastWriteEnded(FileEvents(log))
    ensures forall e :: e in FileEvents(log) ==> IsFileEvent(e)
  {
    if log != [] {
      var front, last := log[..|log| - 1], log[|log| - 1];
      EndedOfEvents(front);
      assert last in log;
      assert (FileEvents(front) + [last])[..|FileEvents(front)|] == FileEvents(front);
    }
  }

  /** With the rollback note stored, and before the manager is told: at every step after the volumes changed the next
      boot names the safety snapshot, unless the file was emptied for the result and the result has not been written
      to its end, be it that the step is inside that write or that the write failed. */
  lemma SecondWriteDecides(start: World, barred: set<Volume>, log: seq<Event>, k: nat, note: Payload, result: Payload,
                           done: seq<Event>)
    requires Entry(start) && Proper(start, barred, log) && k <= |log|
    requires After(start, log[..k]).volumes != start.volumes && forall e :: e in log[..k] ==> !e.NoteRemoved?
    requires FileEvents(log[..k]) == WritingLog(note, Through) + done && done <= WritingLog(result, Through)
    ensures Reported(After(start, log[..k])) <==> done != [Noted(result), Truncated]
  {
    hide Proper, After, Entry, Reported, FileEvents;
    CrashIsReportedIff(start, barred, log, k);
    EndedOfEvents(log[..k]);
    EndedAfterNote(note, result, done);
  }

  lemma EndedAfterNote(note: Payload, result: Payload, done: seq<Event>)
    requires done <= WritingLog(result, Through)
    ensures LastWriteEnded(WritingLog(note, Through) + done) <==> done != [Noted(result), Truncated]
  {
    var all := WritingLog(note, Through) + done;
    var second := WritingLog(result, Through);
    assert done == second[..|done|];
    assert LastWriteEnded(WritingLog(note, Through));
    if |done| == 0 {
      assert all == WritingLog(note, Through);
    } else if |done| == 1 {
      assert all[..3] == WritingLog(note, Through) && all[3] == Noted(result);
      assert done == [Noted(result)];
    } else if |done| == 2 {
      assert all[4] == Truncated && done == [Noted(result), Truncated];
    } else {
      assert all[5] == Stored;
    }
  }

  /** The steps of a restore whose second write of the state file is cut off after the volumes were overwritten. */
  function TornRun(id: SnapshotId, reported: SnapshotId, written: Contents, result: Payload): seq<Event> {
    [Snapshotted(id, reported), Noted(Payload(Overwriting, "", Some(reported), false)), Truncated, Stored,
     Overwritten(written), Noted(result), Truncated]
  }

  /** That run: the first note was stored, the volumes have changed, and the write that was to replace the note has
      emptied the file. The snapshot is there, and neither a boot nor restore_status can say which it is. */
  lemma TornWriteLosesTheId(start: World, id: SnapshotId, reported: SnapshotId, written: Contents, result: Payload)
    requires Entry(start) && start.run.Down? && written.Keys <= start.volumes.Keys
    requires start.volumes + written != start.volumes
    requires result.safety == Some(reported) && !result.status.Overwriting?
    ensures var log := TornRun(id, reported, written, result); var w := After(start, log);
      && Proper(start, {}, log) && w.volumes != start.volumes && HasRollback(start, w)
      && Readable(w.file).None? && !Reported(w)
    ensures Reported(After(start, TornRun(id, reported, written, result)[..6]))
  {
    hide Proper, After, Apply, Legal, Recoverable, HasRollback, NamesRollback;
    var log := TornRun(id, reported, written, result);
    var five := NoteStored(id, reported) + [Overwritten(written)];
    var w5 := UnderNote(start, id, reported).(volumes := start.volumes + written);
    assert log[..6] == five + [Noted(result)] && log == (five + [Noted(result)]) + [Truncated];
    NoteIsStored(start, id, reported);
    NamedByNote(start, id, reported, w5, result);
    Follows(start, NoteStored(id, reported), Overwritten(written), UnderNote(start, id, reported), w5) by {
      OverNote(start, UnderNote(start, id, reported), written);
    }
    var w6 := w5.(noted := Some(result));
    Follows(start, five, Noted(result), w5, w6) by { AfterNote(start, w5, result); }
    NamedByNote(start, id, reported, w6, result);
    Follows(start, five + [Noted(result)], Truncated, w6, w6.(file := Torn)) by { AfterNote(start, w6, result); }
    NamedByNote(start, id, reported, w6.(file := Torn), result);
  }

  function NoteStored(id: SnapshotId, reported: SnapshotId): seq<Event> {
    [Snapshotted(id, reported)] + [Noted(Payload(Overwriting, "", Some(reported), false))] + [Truncated] + [Stored]
  }

  /** The World those four steps make of `start`. */
  function UnderNote(start: World, id: SnapshotId, reported: SnapshotId): World {
    var note := Payload(Overwriting, "", Some(reported), false);
    start.(safety := start.safety + [Snapshot(id, reported, start.volumes)], noted := Some(note), file := Holds(note))
  }

  lemma NamedByNote(start: World, id: SnapshotId, reported: SnapshotId, w: World, result: Payload)
    requires w.safety == UnderNote(start, id, reported).safety && result.safety == Some(reported)
    ensures HasRollback(start, w) && Names(result, w)
    ensures w.noted.Some? && w.noted.value.safety == Some(reported) ==>
      (w.file.Holds? ==> w.file.payload.safety == Some(reported)) ==> NamesRollback(w)
  {
  }

  lemma NoteIsStored(start: World, id: SnapshotId, reported: SnapshotId)
    requires Entry(start) && start.run.Down?
    ensures Proper(start, {}, NoteStored(id, reported))
    ensures After(start, NoteStored(id, reported)) == UnderNote(start, id, reported)
    ensures HasRollback(start, UnderNote(start, id, reported)) && NamesRollback(UnderNote(start, id, reported))
  {
    hide Proper, After, Apply, Legal, Recoverable;
    var note := Payload(Overwriting, "", Some(reported), false);
    NothingDone(start);
    var w1 := start.(safety := start.safety + [Snapshot(id, reported, start.volumes)]);
    var log1 := [Snapshotted(id, reported)];
    assert log1 == [] + log1;
    Follows(start, [], Snapshotted(id, reported), start, w1) by { TakenAtRest(start, id, reported); }
    var w2 := w1.(noted := Some(note));
    Follows(start, log1, Noted(note), w1, w2) by { WhileUntouched(start, w1, note); }
    var w3 := w2.(file := Torn);
    Follows(start, log1 + [Noted(note)], Truncated, w2, w3) by { WhileUntouched(start, w2, note); }
    Follows(start, log1 + [Noted(note)] + [Truncated], Stored, w3, w3.(file := Holds(note))) by {
      WhileUntouched(start, w3, note);
    }
  }

  lemma NothingDone(start: World)
    ensures Proper(start, {}, []) && After(start, []) == start
  {
  }

  lemma Follows(start: World, log: seq<Event>, e: Event, w: World, next: World)
    requires Proper(start, {}, log) && After(start, log) == w
    requires Legal(start, {}, w, e) && Apply(w, e) == next && Recoverable(start, next)
    ensures Proper(start, {}, log + [e]) && After(start, log + [e]) == next
  {
    hide Proper, After, Apply, Legal, Recoverable;
    LogGrows(start, {}, log, e);
  }

  lemma TakenAtRest(start: World, id: SnapshotId, reported: SnapshotId)
    requires Entry(start) && start.run.Down?
    ensures var e := Snapshotted(id, reported);
      && Legal(start, {}, start, e) && Recoverable(start, Apply(start, e))
      && Apply(start, e) == start.(safety := start.safety + [Snapshot(id, reported, start.volumes)])
  {
  }

  lemma WhileUntouched(start: World, w: World, note: Payload)
    requires w.volumes == start.volumes && w.locked && !w.reserved
    ensures Legal(start, {}, w, Noted(note)) && Apply(w, Noted(note)) == w.(noted := Some(note))
    ensures Apply(w, Truncated) == w.(file := Torn)
    ensures w.noted == Some(note) ==> Legal(start, {}, w, Truncated) && Apply(w, Stored) == w.(file := Holds(note))
    ensures w.noted == Some(note) && w.file.Torn? ==> Legal(start, {}, w, Stored)
    ensures Recoverable(start, Apply(w, Noted(note))) && Recoverable(start, Apply(w, Truncated))
    ensures Recoverable(start, Apply(w, Stored))
  {
    hide HasRollback, NamesRollback, AtRest;
  }

  lemma OverNote(start: World, w: World, written: Contents)
    requires w.volumes == start.volumes && w.locked && w.run.Down? && written.Keys <= w.volumes.Keys
    requires HasRollback(start, w) && NamesRollback(w)
    ensures var e := Overwritten(written);
      && Legal(start, {}, w, e) && Recoverable(start, Apply(w, e))
      && Apply(w, e) == w.(volumes := w.volumes + written)
  {
  }

  lemma AfterNote(start: World, w: World, result: Payload)
    requires HasRollback(start, w) && NamesRollback(w) && w.locked && !w.reserved
    requires Names(result, w) && !result.status.Overwriting?
    ensures Legal(start, {}, w, Noted(result)) && Apply(w, Noted(result)) == w.(noted := Some(result))
    ensures Recoverable(start, Apply(w, Noted(result)))
    ensures w.noted == Some(result) ==> Legal(start, {}, w, Truncated) && Recoverable(start, Apply(w, Truncated))
    ensures Apply(w, Truncated) == w.(file := Torn)
  {
    hide AtRest;
  }

  // ---- What the job meets --------------------------------------------------------------------

  datatype Step = Fine | Refused(code: string) | Broke  // Refused: a classified failure; Broke: any other exception
  datatype Wait = Settles | TimesOut | WaitBroke
  datatype Restart = Starts | StartsNothing | RestartBroke  // the exit code of `up -d` is not looked at

  /** `restic dump | docker exec -i <restore>`. */
  datatype Pipe = Pipe(breaks: bool, timesOut: bool, producer: int, consumer: int)

  datatype Meets = Meets(healthy: Option<bool>, hook: Option<bool>, load: Pipe)  // None: the probe raised

  /** _restore_database: both ends are looked at, the producer first. */
  method RestoreDatabase(p: Pipe) returns (r: Step)
    ensures r.Fine? <==> !p.breaks && !p.timesOut && p.producer == 0 && p.consumer == 0
    ensures p.breaks ==> r.Broke?
    ensures !p.breaks && p.timesOut ==> r == Refused("timeout")
    ensures !p.breaks && !p.timesOut && p.producer != 0 ==> r == Refused("restore_dump_failed")
    ensures !p.breaks && !p.timesOut && p.producer == 0 && p.consumer != 0 ==> r == Refused("restore_failed")
  {
    if p.breaks {
      return Broke;
    }
    if p.timesOut {
      return Refused("timeout");
    }
    if p.producer != 0 {
      return Refused("restore_dump_failed");
    }
    if p.consumer != 0 {
      return Refused("restore_failed");
    }
    return Fine;
  }

  datatype Order = Order(
    id: string,
    snapshot: SnapshotId,
    manifest: map<string, SnapshotId>,
    artifacts: seq<(Service, SnapshotId)>,  // its db:<service> entries, in its order
    classes: Classes)

  datatype Outside = Outside(
    listed: seq<Volume>,
    l4: bool,
    backing: set<Volume>,                 // volumes docker shows behind the services of the artifacts
    repository: map<SnapshotId, Contents>,
    torn: Contents,                       // what a failed overwrite leaves
    stops: bool,
    wait: Wait,
    repo: Step,
    safety: Step,
    safetyId: SnapshotId,
    reported: SnapshotId,
    noteWriting: Writing,                 // of the rollback note
    inspected: bool,
    overwrite: Step,
    databasesStart: bool,
    databaseWrites: Contents,
    meets: seq<Meets>,
    restart: Restart,
    forgets: Option<int>,                 // the keep-last setting, when the forget ran
    teardown: bool,
    teardownWait: Wait,
    resultWriting: Writing,               // of the result, over it
    acked: bool)

  function Elements<T>(s: seq<T>): set<T> {
    set x | x in s
  }

  /** The volumes of the start World are those docker lists, and the L4 file. */
  ghost predicate Fits(start: World, order: Order, o: Outside) {
    && Entry(start) && |o.meets| == |order.artifacts|
    && (forall v :: v in start.volumes <==> v in o.listed || (o.l4 && v == L4_PORTS))
    && (forall s :: s in order.manifest.Keys && "db:" <= s ==> (s[3..], order.manifest[s]) in order.artifacts)
    && (forall a :: a in order.artifacts ==> "db:" + a.0 in order.manifest && order.manifest["db:" + a.0] == a.1)
  }

  function Barred(order: Order, o: Outside): set<Volume> {
    if order.artifacts == [] then {} else o.backing
  }

  function DataSnapshot(order: Order): SnapshotId {
    if "data" in order.manifest && order.manifest["data"] != "" then order.manifest["data"] else order.snapshot
  }

  /** Whether the data snapshot goes into the volume. */
  ghost predicate Targeted(order: Order, o: Outside, v: Volume) {
    if order.artifacts == [] then v in o.listed || (o.l4 && v == L4_PORTS)
    else
      || (v in o.listed && IsData(v, order.id, order.classes))
      || (v == L4_PORTS && o.l4 && exists u :: u in o.listed && IsData(u, order.id, order.classes))
  }

  /** `restic restore --delete`: what the snapshot holds, and nothing else. */
  function FromSnapshot(o: Outside, snapshot: SnapshotId, mounts: set<Volume>): (written: Contents)
    ensures written.Keys == mounts
  {
    var held := GetOr(o.repository, snapshot, map[]);
    map v | v in mounts :: GetOr(held, v, "")
  }

  function Only(c: Contents, vols: set<Volume>): (written: Contents)
    ensures written.Keys == c.Keys * vols
  {
    map v | v in c && v in vols :: c[v]
  }

  predicate Good(m: Meets) {
    && m.healthy == Some(true) && m.hook == Some(true)
    && !m.load.breaks && !m.load.timesOut && m.load.producer == 0 && m.load.consumer == 0
  }

  /** Everything a restore needs in order to succeed. */
  ghost predicate Succeeds(start: World, order: Order, o: Outside) {
    && (start.run.Up? ==> o.stops && o.wait.Settles?)
    && o.repo.Fine? && o.safety.Fine?
    && ((exists v :: Targeted(order, o, v)) ==> o.overwrite.Fine?)
    && (order.artifacts != [] ==>
          && order.classes != map[] && (forall v :: v in o.listed ==> Classified(v, order.id, order.classes))
          && o.inspected && (forall v :: v in o.backing ==> !Targeted(order, o, v))
          && o.databasesStart && !o.restart.RestartBroke?
          && forall m :: m in o.meets ==>
               && m.healthy == Some(true) && m.hook == Some(true)
               && m.load == Pipe(false, false, 0, 0))
  }

  /** What a successful restore leaves in a volume; the data snapshot is the manifest's, if it has one. */
  ghost predicate Delivered(start: World, order: Order, o: Outside, w: World) {
    var data := if "data" in order.manifest && order.manifest["data"] != "" then order.manifest["data"]
                else order.snapshot;
    && (forall v :: Targeted(order, o, v) && v in start.volumes && v !in Barred(order, o) ==>
          v in w.volumes && w.volumes[v] == GetOr(GetOr(o.repository, data, map[]), v, ""))
    && (forall v :: !Targeted(order, o, v) && v in start.volumes && v !in Barred(order, o) ==>
          v in w.volumes && w.volumes[v] == start.volumes[v])
    && (forall s :: s in w.loaded <==> "db:" + s in order.manifest)
    && (forall s :: s in w.loaded ==> w.loaded[s] == order.manifest["db:" + s])
  }

  /** The checks between the rollback note and the overwrite. */
  ghost predicate Admits(order: Order, o: Outside) {
    order.artifacts != [] ==>
      && (forall v :: v in o.listed ==> Classified(v, order.id, order.classes))
      && o.inspected && (forall v :: v in o.backing ==> !Targeted(order, o, v))
  }

  /** What it takes to get as far as the rollback note. */
  predicate SafetyTaken(start: World, order: Order, o: Outside) {
    && (start.run.Up? ==> o.stops && o.wait.Settles?) && o.repo.Fine? && o.safety.Fine?
    && (order.artifacts != [] ==> order.classes != map[])
  }

  /** And as far as the database services. */
  ghost predicate StartsDatabases(start: World, order: Order, o: Outside) {
    && order.artifacts != [] && SafetyTaken(start, order, o) && Admits(order, o)
    && ((exists v :: Targeted(order, o, v)) ==> o.overwrite.Fine?)
  }

  /** The volumes after it. */
  ghost predicate Overlaid(start: World, order: Order, o: Outside, volumes: Contents) {
    && volumes.Keys == start.volumes.Keys
    && forall v :: v in start.volumes ==>
         volumes[v] == if Targeted(order, o, v)
           then GetOr(GetOr(o.repository, DataSnapshot(order), map[]), v, "") else start.volumes[v]
  }

  lemma OverwriteIsLegal(start: World, order: Order, o: Outside, w: World, mounts: seq<Volume>, written: Contents)
    requires Fits(start, order, o) && Admits(order, o) && w.volumes == start.volumes
    requires forall v :: v in mounts <==> Targeted(order, o, v)
    requires written.Keys <= Elements(mounts)
    ensures written.Keys <= w.volumes.Keys && written.Keys !! Barred(order, o)
  {
    forall v | v in written ensures v in start.volumes && v !in Barred(order, o) {
      assert Targeted(order, o, v);
    }
  }

  lemma OverwriteDelivers(start: World, order: Order, o: Outside, mounts: seq<Volume>)
    requires Fits(start, order, o) && forall v :: v in mounts <==> Targeted(order, o, v)
    ensures Overlaid(start, order, o, start.volumes + FromSnapshot(o, DataSnapshot(order), Elements(mounts)))
    ensures mounts == [] ==> Overlaid(start, order, o, start.volumes)
  {
    forall v | v in mounts ensures v in start.volumes {
      assert Targeted(order, o, v);
    }
  }

  /** The dumps as they end up in their services. */
  function Replayed(artifacts: seq<(Service, SnapshotId)>): map<Service, SnapshotId> {
    if artifacts == [] then map[]
    else
      var last := artifacts[|artifacts| - 1];
      Replayed(artifacts[..|artifacts| - 1])[last.0 := last.1]
  }

  lemma {:induction false} ReplayedHolds(artifacts: seq<(Service, SnapshotId)>)
    ensures forall s :: s in Replayed(artifacts) ==> (s, Replayed(artifacts)[s]) in artifacts
    ensures forall a :: a in artifacts ==> a.0 in Replayed(artifacts)
  {
    if artifacts != [] {
      var front := artifacts[..|artifacts| - 1];
      ReplayedHolds(front);
      assert artifacts == front + [artifacts[|artifacts| - 1]];
    }
  }

  lemma MountsAreVolumes(start: World, order: Order, o: Outside)
    requires Fits(start, order, o)
    ensures forall v :: v in start.volumes <==> v in o.listed || (o.l4 && v == L4_PORTS)
  {
  }

  lemma MeetsFit(start: World, order: Order, o: Outside)
    requires Fits(start, order, o)
    ensures |o.meets| == |order.artifacts|
  {
  }

  lemma SucceedsUnfolds(start: World, order: Order, o: Outside)
    ensures Succeeds(start, order, o) <==>
      && SafetyTaken(start, order, o) && Admits(order, o) && ((exists v :: Targeted(order, o, v)) ==> o.overwrite.Fine?)
      && (order.artifacts != [] ==>
            o.databasesStart && (forall m :: m in o.meets ==> Good(m)) && !o.restart.RestartBroke?)
  {
    hide Targeted, Classified;
  }

  lemma DeliveredWhen(start: World, order: Order, o: Outside, volumes: Contents, w: World)
    requires Fits(start, order, o) && Overlaid(start, order, o, volumes) && w.volumes.Keys == volumes.Keys
    requires forall v :: v in w.volumes && v !in Barred(order, o) ==> w.volumes[v] == volumes[v]
    requires w.loaded == Replayed(order.artifacts)
    ensures Delivered(start, order, o, w)
  {
    hide Targeted;
    ReplayedHolds(order.artifacts);
    forall s: Service | "db:" + s in order.manifest ensures s in w.loaded {
      assert ("db:" + s)[3..] == s && "db:" <= "db:" + s;
      assert (s, order.manifest["db:" + s]) in order.artifacts;
    }
  }

  /** What that says of each volume. Without database dumps all of them come from the data snapshot; with dumps those of
      class data do, and those of the other classes keep what they held, but for what the databases write. */
  lemma DeliveredMeans(start: World, order: Order, o: Outside, w: World, v: Volume)
    requires Fits(start, order, o) && Delivered(start, order, o, w) && v in start.volumes
    ensures order.artifacts == [] ==> v in w.volumes && w.volumes[v] == HeldBy(order, o, v)
    ensures order.artifacts != [] && v != "l4_ports.json" && v !in o.backing ==>
      var name := if order.id + "_" <= v then v[|order.id| + 1..] else v;
      && v in w.volumes
      && w.volumes[v] == if name in order.classes && order.classes[name] == "data" then HeldBy(order, o, v)
                         else start.volumes[v]
  {
  }

  /** What the data snapshot holds of a volume: that of the manifest, if it names one, or that of the request. */
  function HeldBy(order: Order, o: Outside, v: Volume): string {
    var data := if "data" in order.manifest && order.manifest["data"] != "" then order.manifest["data"]
                else order.snapshot;
    if data in o.repository && v in o.repository[data] then o.repository[data][v] else ""
  }

  lemma DeliveredSince(start: World, order: Order, o: Outside, w: World, w': World)
    requires Delivered(start, order, o, w) && w'.volumes == w.volumes && w'.loaded == w.loaded
    ensures Delivered(start, order, o, w')
  {
    hide Targeted;
  }

  lemma KeptEndsAlike<T>(s: seq<T>, keep: nat)
    requires s != [] && keep > 0
    ensures var kept := if keep < |s| then s[|s| - keep..] else s;
      kept != [] && kept[|kept| - 1] == s[|s| - 1]
  {
  }

  lemma ForgetKeepsRollback(start: World, w: World, keep: nat)
    requires HasRollback(start, w) && NamesRollback(w) && keep > 0
    ensures var w' := Apply(w, Forgot(keep));
      HasRollback(start, w') && NamesRollback(w') && w'.safety[|w'.safety| - 1] == w.safety[|w.safety| - 1]
  {
    hide Apply;
    KeptEndsAlike(w.safety, keep);
    ForgotKeeps(w, keep);
  }

  lemma ForgotKeeps(w: World, keep: nat)
    ensures Apply(w, Forgot(keep)) ==
      w.(safety := if keep < |w.safety| then w.safety[|w.safety| - keep..] else w.safety)
  {
  }

  /** The safety snapshots after a restore that got to its end: with the one it took, all of them, or the newest ones
      up to the setting where that is 1 or more, and the newest alone where it is not. */
  predicate SafetyPruned(start: World, o: Outside, safety: seq<Snapshot>) {
    var all := start.safety + [Snapshot(o.safetyId, o.reported, start.volumes)];
    match o.forgets
    case None => safety == all
    case Some(keep) =>
      && |safety| <= |all| && safety == all[|all| - |safety|..]
      && |safety| == (if keep < 1 then 1 else if keep < |all| then keep else |all|)
  }

  /** The safety snapshots at the end of any restore. */
  predicate SafetyAfter(start: World, o: Outside, taken: bool, delivered: bool, safety: seq<Snapshot>) {
    if delivered then SafetyPruned(start, o, safety)
    else if taken then safety == start.safety + [Snapshot(o.safetyId, o.reported, start.volumes)]
    else safety == start.safety
  }

  lemma ForgetPrunes(start: World, o: Outside, w: World)
    requires w.safety == start.safety + [Snapshot(o.safetyId, o.reported, start.volumes)]
    ensures o.forgets.None? ==> SafetyPruned(start, o, w.safety)
    ensures o.forgets.Some? ==>
      SafetyPruned(start, o, Apply(w, Forgot(if o.forgets.value < 1 then 1 else o.forgets.value)).safety)
  {
    hide Apply;
    if o.forgets.Some? {
      ForgotKeeps(w, if o.forgets.value < 1 then 1 else o.forgets.value);
    }
  }

  datatype Exit = Proceeds | Returned | Raised(step: Step)

  // ---- What a failed restore says ---------------------------------------------------------------

  /** The code a classified failure carries; anything else leaves the body at "restore_failed". */
  function Told(step: Step): string {
    if step.Refused? then step.code else "restore_failed"
  }

  /** The code the body has once the except clauses are through. */
  function Coded(exit: Exit, code: string): string {
    if exit.Raised? && exit.step.Refused? then exit.step.code else code
  }

  /** Up to the rollback note. */
  function SafetyCode(start: World, order: Order, o: Outside): string {
    if start.run.Up? && (!o.stops || o.wait.WaitBroke?) then "restore_failed"
    else if start.run.Up? && o.wait.TimesOut? then "stop_timeout"
    else if !o.repo.Fine? then Told(o.repo)
    else if order.artifacts != [] && order.classes == map[] then "volume_unclassified"
    else if o.safety.Refused? then "safety_snapshot_failed"
    else "restore_failed"
  }

  ghost function MountsCode(order: Order, o: Outside): string {
    if exists v :: v in o.listed && !Classified(v, order.id, order.classes) then "volume_unclassified"
    else if !o.inspected then "restore_failed"
    else "db_volume_misclassified"
  }

  /** Up to the databases. */
  ghost function OverwriteCode(order: Order, o: Outside): string {
    if !Admits(order, o) then MountsCode(order, o) else Told(o.overwrite)
  }

  function LoadCode(m: Meets): string {
    if m.healthy.None? then "restore_failed"
    else if !m.healthy.value then "db_not_ready"
    else if m.hook.None? then "restore_failed"
    else if !m.hook.value then "no_restore_hook"
    else if m.load.breaks then "restore_failed"
    else if m.load.timesOut then "timeout"
    else if m.load.producer != 0 then "restore_dump_failed"
    else "restore_failed"
  }

  /** The first dump that does not load says what happened; with all of them loaded it was the restart that raised. */
  function DumpsCode(meets: seq<Meets>): string {
    if meets == [] then "restore_failed"
    else if !Good(meets[0]) then LoadCode(meets[0])
    else DumpsCode(meets[1..])
  }

  lemma {:induction false} DumpsCodeAt(meets: seq<Meets>, i: nat)
    requires i <= |meets| && forall k :: 0 <= k < i ==> Good(meets[k])
    ensures i < |meets| && !Good(meets[i]) ==> DumpsCode(meets) == LoadCode(meets[i])
    ensures i == |meets| ==> DumpsCode(meets) == "restore_failed"
  {
    hide Good, LoadCode;
    if i > 0 {
      assert forall k :: 0 <= k < i - 1 ==> meets[1..][k] == meets[k + 1];
      DumpsCodeAt(meets[1..], i - 1);
    }
  }

  /** The whole job. */
  ghost function FailureCode(start: World, order: Order, o: Outside): string {
    if !SafetyTaken(start, order, o) then SafetyCode(start, order, o)
    else if !Admits(order, o) || ((exists v :: Targeted(order, o, v)) && !o.overwrite.Fine?)
    then OverwriteCode(order, o)
    else if !o.databasesStart then "restore_failed"
    else DumpsCode(o.meets)
  }

  lemma StillRecoverable(start: World, w: World)
    requires Recoverable(start, w)
    ensures Recoverable(start, Apply(w, Truncated)) && Recoverable(start, Apply(w, Stored))
  {
  }

  lemma ThreeMore<T>(before: seq<T>, a: T, b: T, c: T)
    ensures before + [a] + [b] == before + [a, b] && before + [a] + [b] + [c] == before + [a, b, c]
  {
  }

  // ---- The job -----------------------------------------------------------------------------

  class Job {
    const start: World
    const order: Order
    const o: Outside
    var world: World
    var log: seq<Event>
    var payload: Payload
    var safetyId: SnapshotId
    var overwriteStarted: bool
    var databasesStarted: bool
    ghost var overwrote: bool

    constructor (start: World, order: Order, o: Outside)
      requires Fits(start, order, o)
      ensures this.start == start && this.order == order && this.o == o && world == start && log == []
      ensures Valid() && !overwriteStarted && !databasesStarted && !overwrote
      ensures safetyId == "" && payload == Payload(Failed, "restore_failed", None, false)
    {
      this.start, this.order, this.o := start, order, o;
      world, log, payload := start, [], Payload(Failed, "restore_failed", None, false);
      safetyId, overwriteStarted, databasesStarted, overwrote := "", false, false, false;
    }

    ghost predicate Valid()
      reads this
    {
      && Fits(start, order, o)
      && world == After(start, log) && Proper(start, Barred(order, o), log) && Recoverable(start, world)
    }

    method Emit(e: Event)
      requires Valid() && Legal(start, Barred(order, o), world, e) && Recoverable(start, Apply(world, e))
      modifies this`world, this`log
      ensures Valid() && world == Apply(old(world), e) && log == old(log) + [e]
      ensures FileEvents(log) == if IsFileEvent(e) then old(FileEvents(log)) + [e] else old(FileEvents(log))
    {
      LogGrows(start, Barred(order, o), log, e);
      assert (log + [e])[..|log|] == log;
      world, log := Apply(world, e), log + [e];
    }

    /** _write_json of the state file. */
    method WriteState(body: Payload, writing: Writing)
      requires Valid() && Legal(start, Barred(order, o), world, Noted(body))
      requires Recoverable(start, Apply(world, Noted(body)))
      modifies this`world, this`log
      ensures Valid() && world == old(world).(noted := Some(body), file := FileAfter(old(world).file, body, writing))
      ensures FileEvents(log) == old(FileEvents(log)) + WritingLog(body, writing)
    {
      hide Proper, After, Fits, Barred, FileEvents;
      ghost var before := FileEvents(log);
      Emit(Noted(body));
      if !writing.NotOpened? {
        StillRecoverable(start, world);
        Emit(Truncated);
        if writing.Through? {
          StillRecoverable(start, world);
          Emit(Stored);
        }
      }
      ThreeMore(before, Noted(body), Truncated, Stored);
    }

    /** The job still holds everything, and nobody was told anything. */
    ghost predicate Holding()
      reads this
    {
      Valid() && world.locked && !world.reserved && world.sent == []
    }

    /** The initial body, but for its code. */
    ghost predicate Unsaid()
      reads this
    {
      payload.status.Failed? && payload.safety.None? && !payload.alreadyRunning
    }

    /** Past the rollback note. */
    ghost predicate Armed()
      reads this
    {
      && Holding() && overwriteStarted && safetyId == o.reported
      && HasRollback(start, world) && NamesRollback(world)
      && world.safety[|world.safety| - 1].reported == o.reported
      && world.noted == Some(Payload(Overwriting, "", Some(o.reported), false))
      && FileEvents(log) == WritingLog(Payload(Overwriting, "", Some(o.reported), false), o.noteWriting)
      && world.file == FileAfter(Missing, Payload(Overwriting, "", Some(o.reported), false), o.noteWriting)
      && world.snapshotAwake == start.run.Partial? && world.overwriteAwake == (start.run.Partial? && overwrote)
    }

    /** Before it. */
    ghost predicate Unarmed()
      reads this
    {
      && Holding() && !overwriteStarted && safetyId == ""
      && world.volumes == start.volumes && world.loaded == map[] && world.safety == start.safety
      && world.noted.None? && world.file.Missing? && FileEvents(log) == []
      && !world.snapshotAwake && !world.overwriteAwake && !overwrote
    }

    /** A running instance is stopped first. */
    method StopFirst() returns (exit: Exit)
      requires Unarmed() && Unsaid() && world == start
      modifies this`world, this`log, this`payload
      ensures Unarmed() && Unsaid()
      ensures exit.Proceeds? <==> (start.run.Up? ==> o.stops && o.wait.Settles?)
      ensures world.run == if start.run.Up? && o.stops then (if o.wait.Settles? then Down else Unsettled) else start.run
      ensures payload.code == if exit.Returned? then SafetyCode(start, order, o) else old(payload.code)
      ensures exit.Raised? ==> Coded(exit, "restore_failed") == SafetyCode(start, order, o)
    {
      hide Proper, After, Fits, HasRollback, NamesRollback, Recoverable;
      if start.run.Up? {
        if !o.stops {
          return Raised(Broke);
        }
        OnlyVolumesMatter(start, world, StopIssued);
        Emit(StopIssued);
        if o.wait.WaitBroke? {
          return Raised(Broke);
        }
        if o.wait.TimesOut? {
          payload := payload.(code := "stop_timeout");
          return Returned;
        }
        OnlyVolumesMatter(start, world, Settled);
        Emit(Settled);
      }
      return Proceeds;
    }

    /** The safety snapshot, and the note that names it. */
    method Arm()
      requires Unarmed() && Quiet(start, world) && (start.run.Partial? ==> world.run.Partial?)
      modifies this`world, this`log, this`safetyId, this`overwriteStarted
      ensures Armed() && world.run == old(world.run) && world.volumes == start.volumes && world.loaded == map[]
      ensures world.safety == start.safety + [Snapshot(o.safetyId, o.reported, start.volumes)]
    {
      hide Proper, After, Fits;
      Emit(Snapshotted(o.safetyId, o.reported));
      safetyId := o.reported;
      WriteState(Payload(Overwriting, "", Some(safetyId), false), o.noteWriting);
      overwriteStarted := true;
    }

    /** Up to the rollback note. */
    method TakeSafety() returns (exit: Exit, mounts: seq<Volume>)
      requires Unarmed() && Unsaid() && world == start && !databasesStarted
      modifies this
      ensures Unsaid() && !databasesStarted && world.volumes == start.volumes && world.loaded == map[]
      ensures if exit.Proceeds? then Armed() else Unarmed()
      ensures exit.Proceeds? <==> SafetyTaken(start, order, o)
      ensures !overwrote
      ensures world.run == if start.run.Up? && o.stops then (if o.wait.Settles? then Down else Unsettled) else start.run
      ensures exit.Proceeds? ==> Quiet(start, world) && forall v :: v in mounts <==> v in start.volumes
      ensures exit.Proceeds? ==> world.safety == start.safety + [Snapshot(o.safetyId, o.reported, start.volumes)]
      ensures payload.code == if exit.Returned? then SafetyCode(start, order, o) else old(payload.code)
      ensures exit.Raised? ==> Coded(exit, "restore_failed") == SafetyCode(start, order, o)
    {
      hide Proper, After, Fits, HasRollback, NamesRollback, Recoverable;
      EntryIsUnarmed(start, order, o);
      mounts := [];
      exit := StopFirst();
      if !exit.Proceeds? {
        return exit, mounts;
      }
      if !o.repo.Fine? {
        return Raised(o.repo), mounts;
      }
      if order.artifacts != [] && order.classes == map[] {
        payload := payload.(code := "volume_unclassified");
        return Returned, mounts;
      }
      mounts := BackupMounts(o.listed, o.l4);
      MountsAreVolumes(start, order, o);
      if o.safety.Refused? {
        payload := payload.(code := "safety_snapshot_failed");
        return Returned, mounts;
      }
      if o.safety.Broke? {
        return Raised(o.safety), mounts;
      }
      Arm();
      return Proceeds, mounts;
    }

    /** The mounts the data snapshot may overwrite, or how the job stops instead. */
    method DataMounts(all: seq<Volume>) returns (exit: Exit, mounts: seq<Volume>)
      requires Fits(start, order, o)
      requires forall v :: v in all <==> v in start.volumes
      modifies this`payload
      ensures exit.Proceeds? <==> Admits(order, o)
      ensures exit.Proceeds? ==> forall v :: v in mounts <==> Targeted(order, o, v)
      ensures payload ==
        if exit.Returned? then Payload(Failed, "db_volume_misclassified", Some(safetyId), false) else old(payload)
      ensures exit.Raised? ==> Coded(exit, "restore_failed") == MountsCode(order, o)
      ensures exit.Returned? ==> payload.code == MountsCode(order, o)
    {
      mounts := all;
      if order.artifacts != [] {
        var hot := HotBackupMounts(o.listed, order.id, order.classes, o.l4);
        if hot.Err? {
          return Raised(Refused(hot.error)), mounts;
        }
        mounts := hot.value;
        assert forall v :: v in mounts <==> Targeted(order, o, v);
        if !o.inspected {
          return Raised(Broke), mounts;
        }
        if o.backing * Elements(mounts) != {} {
          var v :| v in o.backing * Elements(mounts);
          payload := Payload(Failed, "db_volume_misclassified", Some(safetyId), false);
          return Returned, mounts;
        }
        forall v | v in o.backing ensures v !in mounts {
          assert v in Elements(mounts) ==> v in o.backing * Elements(mounts);
        }
      }
      return Proceeds, mounts;
    }

    /** One delete-restore of the mounted volumes. */
    method Overwrite(written: Contents)
      requires Armed() && Quiet(start, world) && (start.run.Partial? ==> world.run.Partial?) && !overwrote
      requires written.Keys <= world.volumes.Keys && written.Keys !! Barred(order, o)
      modifies this`world, this`log, this`overwrote
      ensures Armed() && overwrote && world.run == old(world.run) && world.loaded == old(world.loaded)
      ensures world.safety == old(world.safety)
      ensures world.volumes == old(world.volumes) + written
    {
      hide Proper, After, Fits, Barred;
      overwrote := true;
      Emit(Overwritten(written));
    }

    /** The data volumes, from the data snapshot. */
    method OverwriteVolumes(all: seq<Volume>) returns (exit: Exit)
      requires Armed() && Unsaid() && Quiet(start, world) && world.volumes == start.volumes
      requires forall v :: v in all <==> v in start.volumes
      requires (start.run.Partial? ==> world.run.Partial?) && !overwrote
      modifies this`world, this`log, this`payload, this`overwrote
      ensures Armed() && world.run == old(world.run) && world.loaded == old(world.loaded)
      ensures world.safety == old(world.safety)
      ensures overwrote <==> Admits(order, o) && exists v :: Targeted(order, o, v)
      ensures payload.status.Failed? && !payload.alreadyRunning
      ensures exit.Proceeds? <==> Admits(order, o) && ((exists v :: Targeted(order, o, v)) ==> o.overwrite.Fine?)
      ensures if exit.Returned? then payload.safety == Some(safetyId) else Unsaid()
      ensures exit.Proceeds? ==> Overlaid(start, order, o, world.volumes)
      ensures payload.code == if exit.Returned? then OverwriteCode(order, o) else old(payload.code)
      ensures exit.Raised? ==> Coded(exit, "restore_failed") == OverwriteCode(order, o)
    {
      hide Proper, After, Admits, Targeted, Overlaid, Fits, Only, FromSnapshot, HasRollback, NamesRollback, Barred;
      var mounts;
      exit, mounts := DataMounts(all);
      if !exit.Proceeds? {
        return exit;
      }
      if mounts != [] {
        assert Targeted(order, o, mounts[0]);
        if !o.overwrite.Fine? {
          OverwriteIsLegal(start, order, o, world, mounts, Only(o.torn, Elements(mounts)));
          Overwrite(Only(o.torn, Elements(mounts)));
          if o.overwrite.Broke? {
            return Raised(Broke);
          }
          payload := Payload(Failed, o.overwrite.code, Some(safetyId), false);
          return Returned;
        }
        OverwriteIsLegal(start, order, o, world, mounts, FromSnapshot(o, DataSnapshot(order), Elements(mounts)));
        Overwrite(FromSnapshot(o, DataSnapshot(order), Elements(mounts)));
      }
      OverwriteDelivers(start, order, o, mounts);
      assert mounts == [] ==> forall v :: !Targeted(order, o, v);
      return Proceeds;
    }

    method StartServices()
      requires Armed() && Quiet(start, world) && order.artifacts != []
      modifies this`world, this`log
      ensures Armed() && world.run.Databases? && world.loaded == old(world.loaded)
      ensures world.safety == old(world.safety)
      ensures world.volumes.Keys == old(world.volumes).Keys
      ensures forall v :: v in world.volumes && v !in o.backing ==> world.volumes[v] == old(world.volumes)[v]
    {
      hide Proper, After, Fits;
      Emit(ServicesStarted(Only(o.databaseWrites, o.backing * world.volumes.Keys)));
    }

    /** _restart, which does not look at the exit code. */
    method RestartAll()
      requires Armed() && world.run.Databases? && !o.restart.RestartBroke?
      modifies this`world, this`log
      ensures Armed() && world.run == if o.restart.Starts? then Up else Databases
      ensures world.loaded == old(world.loaded) && world.volumes == old(world.volumes)
      ensures world.safety == old(world.safety)
    {
      hide Proper, After, Fits;
      Emit(RestartIssued(o.restart.Starts?));
    }

    /** One dump, into its healthy service. */
    method LoadDatabase(artifact: (Service, SnapshotId), meets: Meets) returns (exit: Exit)
      requires Armed() && Unsaid() && world.run.Databases?
      modifies this`world, this`log, this`payload
      ensures Armed() && world.run.Databases? && world.volumes == old(world.volumes)
      ensures world.safety == old(world.safety)
      ensures exit.Proceeds? <==> Good(meets)
      ensures if exit.Returned?
        then payload.status.Failed? && payload.safety == Some(safetyId) && !payload.alreadyRunning else Unsaid()
      ensures exit.Proceeds? ==> world.loaded == old(world.loaded)[artifact.0 := artifact.1]
      ensures payload.code == if exit.Returned? then LoadCode(meets) else old(payload.code)
      ensures exit.Raised? ==> Coded(exit, "restore_failed") == LoadCode(meets)
    {
      hide Proper, After, Fits;
      if meets.healthy.None? {
        return Raised(Broke);
      }
      if !meets.healthy.value {
        payload := Payload(Failed, "db_not_ready", Some(safetyId), false);
        return Returned;
      }
      if meets.hook.None? {
        return Raised(Broke);
      }
      if !meets.hook.value {
        payload := Payload(Failed, "no_restore_hook", Some(safetyId), false);
        return Returned;
      }
      var load := RestoreDatabase(meets.load);
      if !load.Fine? {
        return Raised(load);
      }
      Emit(Loaded(artifact.0, artifact.1));
      return Proceeds;
    }

    /** Every dump in turn, to the first that does not load. */
    method LoadEach() returns (exit: Exit)
      requires Armed() && Unsaid() && world.run.Databases? && world.loaded == map[]
      requires |o.meets| == |order.artifacts|
      modifies this`world, this`log, this`payload
      ensures Armed() && world.run.Databases? && world.volumes == old(world.volumes)
      ensures world.safety == old(world.safety)
      ensures exit.Proceeds? <==> forall m :: m in o.meets ==> Good(m)
      ensures exit.Proceeds? ==> world.loaded == Replayed(order.artifacts)
      ensures if exit.Returned?
        then payload.status.Failed? && payload.safety == Some(safetyId) && !payload.alreadyRunning else Unsaid()
      ensures payload.code == if exit.Returned? then DumpsCode(o.meets) else old(payload.code)
      ensures exit.Raised? ==> Coded(exit, "restore_failed") == DumpsCode(o.meets)
      ensures exit.Proceeds? ==> DumpsCode(o.meets) == "restore_failed"
    {
      hide Good, Armed, Holding, Valid;
      var artifacts := order.artifacts;
      for i := 0 to |artifacts|
        invariant Armed() && Unsaid() && world.run.Databases? && world.volumes == old(world.volumes)
        invariant world.safety == old(world.safety)
        invariant world.loaded == Replayed(artifacts[..i])
        invariant forall k :: 0 <= k < i ==> Good(o.meets[k])
        invariant payload.code == old(payload.code)
      {
        DumpsCodeAt(o.meets, i);
        exit := LoadDatabase(artifacts[i], o.meets[i]);
        if !exit.Proceeds? {
          assert o.meets[i] in o.meets;
          return exit;
        }
        assert artifacts[..i + 1] == artifacts[..i] + [artifacts[i]];
      }
      assert artifacts[..|artifacts|] == artifacts;
      DumpsCodeAt(o.meets, |artifacts|);
      return Proceeds;
    }

    /** The database services alone, each dump into its own, and then the whole instance. */
    method LoadDatabases() returns (exit: Exit)
      requires Armed() && Unsaid() && Quiet(start, world) && order.artifacts != [] && world.loaded == map[]
      modifies this`world, this`log, this`payload, this`databasesStarted
      ensures Armed() && databasesStarted
      ensures exit.Proceeds? <==> o.databasesStart && (forall m :: m in o.meets ==> Good(m)) && !o.restart.RestartBroke?
      ensures if exit.Proceeds? then payload == Payload(Success, "", Some(safetyId), true)
        else if exit.Returned?
        then payload.status.Failed? && payload.safety == Some(safetyId) && !payload.alreadyRunning else Unsaid()
      ensures exit.Proceeds? ==> world.loaded == Replayed(order.artifacts)
      ensures world.run == if exit.Proceeds? && o.restart.Starts? then Up else Databases
      ensures world.safety == old(world.safety)
      ensures world.volumes.Keys == old(world.volumes).Keys
      ensures forall v :: v in world.volumes && v !in o.backing ==> world.volumes[v] == old(world.volumes)[v]
      ensures var code := if !o.databasesStart then "restore_failed" else DumpsCode(o.meets);
        && (exit.Returned? ==> payload.code == code)
        && (exit.Raised? ==> payload.code == old(payload.code) && Coded(exit, "restore_failed") == code)
    {
      hide Proper, After, Admits, Targeted, Overlaid, Fits, Only, Good, HasRollback, NamesRollback, Recoverable;
      MeetsFit(start, order, o);
      databasesStarted := true;
      StartServices();
      if !o.databasesStart {
        return Raised(Broke);
      }
      exit := LoadEach();
      if !exit.Proceeds? {
        return exit;
      }
      if o.restart.RestartBroke? {
        return Raised(Broke);
      }
      RestartAll();
      payload := Payload(Success, "", Some(safetyId), true);
      return Proceeds;
    }

    /** The newest safety snapshots stay, at least one. */
    method Prune()
      requires Armed() && Delivered(start, order, o, world)
      requires world.safety == start.safety + [Snapshot(o.safetyId, o.reported, start.volumes)]
      modifies this`world, this`log
      ensures Armed() && Delivered(start, order, o, world) && world.run == old(world.run)
      ensures SafetyPruned(start, o, world.safety)
    {
      hide Proper, After, Fits, HasRollback, NamesRollback, Delivered, SafetyPruned, Apply;
      ForgetPrunes(start, o, world);
      if o.forgets.Some? {
        var keep := if o.forgets.value < 1 then 1 else o.forgets.value;
        ForgotKeeps(world, keep);
        ForgetKeepsRollback(start, world, keep);
        DeliveredSince(start, order, o, world, Apply(world, Forgot(keep)));
        Emit(Forgot(keep));
      }
    }

    /** What follows the overwrite: the databases if there are any, and the pruning. */
    method LoadAndPrune() returns (exit: Exit)
      requires Armed() && Unsaid() && Quiet(start, world) && world.loaded == map[] && !databasesStarted
      requires Overlaid(start, order, o, world.volumes)
      requires world.safety == start.safety + [Snapshot(o.safetyId, o.reported, start.volumes)]
      modifies this`world, this`log, this`payload, this`databasesStarted
      ensures if exit.Proceeds? then SafetyPruned(start, o, world.safety) else world.safety == old(world.safety)
      ensures Armed() && (databasesStarted <==> order.artifacts != [])
      ensures exit.Proceeds? <==>
        (order.artifacts != [] ==>
           o.databasesStart && (forall m :: m in o.meets ==> Good(m)) && !o.restart.RestartBroke?)
      ensures exit.Proceeds? ==> payload == Payload(Success, "", Some(safetyId), order.artifacts != [])
      ensures !exit.Proceeds? ==>
        payload.status.Failed? && !payload.alreadyRunning && (payload.safety.None? || payload.safety == Some(safetyId))
      ensures exit.Returned? ==> payload.safety == Some(safetyId)
      ensures exit.Proceeds? ==> Delivered(start, order, o, world)
      ensures world.run ==
        if databasesStarted then (if exit.Proceeds? && o.restart.Starts? then Up else Databases) else old(world.run)
      ensures var code := if !o.databasesStart then "restore_failed" else DumpsCode(o.meets);
        && (exit.Returned? ==> payload.code == code)
        && (exit.Raised? ==> payload.code == old(payload.code) && Coded(exit, "restore_failed") == code)
    {
      hide Proper, After, Targeted, Overlaid, Fits, HasRollback, NamesRollback, Delivered, Good;
      ghost var volumes := world.volumes;
      if order.artifacts != [] {
        exit := LoadDatabases();
        if !exit.Proceeds? {
          return exit;
        }
      } else {
        payload := Payload(Success, "", Some(safetyId), false);
      }
      DeliveredWhen(start, order, o, volumes, world);
      Prune();
      return Proceeds;
    }

    /** The try block. */
    method Attempt() returns (exit: Exit)
      requires Unarmed() && Unsaid() && world == start && !databasesStarted
      modifies this
      ensures if overwriteStarted then Armed() else Unarmed() && !databasesStarted
      ensures exit.Proceeds? <==> Succeeds(start, order, o)
      ensures exit.Proceeds? ==>
        payload == Payload(Success, "", Some(safetyId), order.artifacts != []) && overwriteStarted
      ensures !exit.Proceeds? ==>
        payload.status.Failed? && !payload.alreadyRunning && (payload.safety.None? || payload.safety == Some(safetyId))
      ensures exit.Returned? && overwriteStarted ==> payload.safety == Some(safetyId)
      ensures exit.Proceeds? ==> Delivered(start, order, o, world)
      ensures SafetyAfter(start, o, overwriteStarted, exit.Proceeds?, world.safety)
      ensures overwriteStarted <==> SafetyTaken(start, order, o)
      ensures overwrote <==> SafetyTaken(start, order, o) && Admits(order, o) && exists v :: Targeted(order, o, v)
      ensures databasesStarted <==> StartsDatabases(start, order, o)
      ensures exit.Proceeds? ==> (databasesStarted <==> order.artifacts != [])
      ensures world.run == if databasesStarted then (if exit.Proceeds? && o.restart.Starts? then Up else Databases)
        else if start.run.Up? && o.stops then (if o.wait.Settles? then Down else Unsettled) else start.run
      ensures overwriteStarted && start.run.Up? ==> o.stops && o.wait.Settles?
      ensures exit.Returned? ==> payload.code == FailureCode(start, order, o)
      ensures exit.Raised? ==>
        payload.code == old(payload.code) && Coded(exit, "restore_failed") == FailureCode(start, order, o)
    {
      hide Proper, After, Targeted, Overlaid, Fits, HasRollback, NamesRollback, Delivered, Good, Admits, Succeeds;
      SucceedsUnfolds(start, order, o);
      var all;
      exit, all := TakeSafety();
      if !exit.Proceeds? {
        return exit;
      }
      exit := OverwriteVolumes(all);
      if !exit.Proceeds? {
        return exit;
      }
      exit := LoadAndPrune();
    }

    /** The except clauses: a classified error gives its code, and both give the safety id. */
    method Classify(exit: Exit)
      modifies this`payload
      ensures payload == if exit.Raised?
        then old(payload).(safety := Some(safetyId),
                           code := if exit.step.Refused? then exit.step.code else old(payload).code)
        else old(payload)
    {
      if exit.Raised? {
        if exit.step.Refused? {
          payload := payload.(code := exit.step.code);
        }
        payload := payload.(safety := Some(safetyId));
      }
    }

    /** Everything the finally block still knows about the body it sends. */
    ghost predicate Concluded()
      reads this
    {
      && (payload.status.Failed? || payload.status.Success?)
      && (payload.alreadyRunning ==> payload.status.Success?)
      && (if overwriteStarted then Armed() && payload.safety == Some(safetyId)
          else Unarmed() && payload.status.Failed? && (payload.safety.None? || payload.safety == Some("")))
    }

    /** The try block and its except clauses: where the finally block starts from. */
    method Try()
      requires Unarmed() && Unsaid() && world == start && !databasesStarted
      modifies this
      ensures Concluded() && (databasesStarted ==> overwriteStarted)
      ensures Restored(payload) <==> Succeeds(start, order, o)
      ensures Restored(payload) ==> Delivered(start, order, o, world)
      ensures Restored(payload) ==> (payload.alreadyRunning <==> order.artifacts != [])
      ensures Restored(payload) ==> databasesStarted == payload.alreadyRunning
      ensures !Restored(payload) ==> !payload.alreadyRunning
      ensures SafetyAfter(start, o, overwriteStarted, Restored(payload), world.safety)
      ensures overwriteStarted ==> payload.safety == Some(o.reported)
      ensures !overwriteStarted ==> payload.safety.None? || payload.safety == Some("")
      ensures !overwriteStarted ==>
        world.volumes == start.volumes && world.loaded == map[] && world.safety == start.safety
      ensures overwriteStarted <==> SafetyTaken(start, order, o)
      ensures databasesStarted <==> StartsDatabases(start, order, o)
      ensures world.snapshotAwake <==> start.run.Partial? && overwriteStarted
      ensures world.overwriteAwake <==>
        start.run.Partial? && SafetyTaken(start, order, o) && Admits(order, o) && exists v :: Targeted(order, o, v)
      ensures world.run == if databasesStarted then (if Restored(payload) && o.restart.Starts? then Up else Databases)
        else if start.run.Up? && o.stops then (if o.wait.Settles? then Down else Unsettled) else start.run
      ensures overwriteStarted && start.run.Up? ==> o.stops && o.wait.Settles?
      ensures old(payload.code) == "restore_failed" && !Restored(payload) ==>
        payload.code == FailureCode(start, order, o)
    {
      hide Proper, After, Targeted, Fits, HasRollback, NamesRollback, Delivered, Good, Admits, Succeeds, SafetyTaken,
        StartsDatabases, Recoverable;
      var exit := Attempt();
      Classify(exit);
    }

    /** `up -d`, whatever it answers. */
    method BringBack()
      requires Concluded() && !overwriteStarted
      modifies this`world, this`log
      ensures Concluded() && world == old(world).(run := world.run) && FileEvents(log) == old(FileEvents(log))
      ensures world.run == if o.restart.Starts? && !old(world.run).Unsettled? then Up else old(world.run)
    {
      hide Proper, After, Fits, HasRollback, NamesRollback, Recoverable;
      if !o.restart.RestartBroke? {
        OnlyVolumesMatter(start, world, RestartIssued(o.restart.Starts?));
        Emit(RestartIssued(o.restart.Starts?));
      }
    }

    /** The half restored instance does not stay up. */
    method TearDown()
      requires Concluded() && overwriteStarted
      modifies this`world, this`log
      ensures Concluded() && world == old(world).(run := world.run) && FileEvents(log) == old(FileEvents(log))
      ensures world.run == if o.teardown then (if o.teardownWait.Settles? then Down else Unsettled) else old(world.run)
    {
      hide Proper, After, Fits, HasRollback, NamesRollback, Recoverable;
      if o.teardown {
        OnlyVolumesMatter(start, world, StopIssued);
        Emit(StopIssued);
        if o.teardownWait.Settles? {
          OnlyVolumesMatter(start, world, Settled);
          Emit(Settled);
        }
      }
    }

    /** The finally block, first half: a failed restore brings back what it stopped, or takes down what it
        started. */
    method Undo()
      requires Concluded() && (databasesStarted ==> overwriteStarted)
      modifies this`world, this`log
      ensures Concluded() && world == old(world).(run := world.run) && FileEvents(log) == old(FileEvents(log))
      ensures world.run ==
        if Restored(payload) then old(world.run)
        else if start.run.Up? && !overwriteStarted then
          (if o.restart.Starts? && !old(world.run).Unsettled? then Up else old(world.run))
        else if databasesStarted && o.teardown then (if o.teardownWait.Settles? then Down else Unsettled)
        else old(world.run)
    {
      hide Valid, Armed, Unarmed;
      if start.run.Up? && !overwriteStarted && !Restored(payload) {
        BringBack();
      } else if databasesStarted && !Restored(payload) {
        TearDown();
      }
    }

    /** The second half: state file, reservation, lock, callback. */
    method Conclude()
      requires Concluded()
      modifies this`world, this`log
      ensures Proper(start, Barred(order, o), log) && world == After(start, log)
      ensures world.volumes == old(world.volumes) && world.loaded == old(world.loaded) && world.run == old(world.run)
      ensures world.safety == old(world.safety)
      ensures world.snapshotAwake == old(world.snapshotAwake) && world.overwriteAwake == old(world.overwriteAwake)
      ensures world.sent == [payload] && !world.locked && world.reserved == StartFollows(payload)
      ensures world.file == if o.acked then Missing else FileAfter(old(world.file), payload, o.resultWriting)
      ensures FileEvents(log) == old(FileEvents(log)) + WritingLog(payload, o.resultWriting)
    {
      hide Proper, After, Fits;
      WriteState(payload, o.resultWriting);
      if Restored(payload) && !payload.alreadyRunning {
        OnlyVolumesMatter(start, world, Reserved);
        Emit(Reserved);
      }
      Tell();
    }

    /** The lock goes before the callback. */
    method Tell()
      requires Valid() && world.locked && world.sent == [] && world.noted == Some(payload)
      requires world.reserved <==> StartFollows(payload)
      modifies this`world, this`log
      ensures Proper(start, Barred(order, o), log) && world == After(start, log)
      ensures FileEvents(log) == old(FileEvents(log))
      ensures world ==
        old(world).(locked := false, sent := [payload], file := if o.acked then Missing else old(world).file)
    {
      hide Proper, After, Fits, StartFollows, Barred, HasRollback, NamesRollback, Recoverable;
      OnlyVolumesMatter(start, world, Released);
      Emit(Released);
      Post();
    }

    /** The one callback, and the state file once it is acknowledged. */
    method Post()
      requires Valid() && !world.locked && world.sent == [] && world.noted == Some(payload)
      modifies this`world, this`log
      ensures FileEvents(log) == old(FileEvents(log))
      ensures Valid() && world == old(world).(sent := [payload], file := if o.acked then Missing else old(world).file)
    {
      hide Proper, After, Fits, Barred;
      Emit(Called(payload));
      if o.acked {
        Emit(NoteRemoved);
      }
    }
  }

  /** Whether the calls that start and stop containers do their work. */
  predicate CallsWork(o: Outside) {
    o.stops && o.wait.Settles? && o.restart.Starts? && o.teardown && o.teardownWait.Settles?
  }

  /** restore_instance. Whatever it meets, every effect fits the rules and every World on the way is
      recoverable; it reports success exactly when everything it needs went well, and then the volumes and
      databases are as ordered; otherwise nothing changed or the body names the safety snapshot; and the body
      tells the manager whether the instance runs. */
  method RestoreInstance(start: World, order: Order, o: Outside) returns (log: seq<Event>, payload: Payload)
    requires Fits(start, order, o)
    ensures Proper(start, Barred(order, o), log)
    ensures Restored(payload) <==> Succeeds(start, order, o)
    ensures Restored(payload) ==> Delivered(start, order, o, After(start, log))
    ensures Restored(payload) ==> payload.alreadyRunning == (order.artifacts != [])
    ensures !Restored(payload) ==> payload.code == FailureCode(start, order, o)
    ensures payload.safety == Some(o.reported)
      || (var w := After(start, log); w.volumes == start.volumes && w.loaded == map[] && w.safety == start.safety)
    ensures CallsWork(o) && o.reported != "" ==>
      After(start, log).run ==
        (if payload.alreadyRunning then Up
         else if payload.safety == Some(o.reported) && (start.run.Up? || StartsDatabases(start, order, o)) then Down
         else start.run)
    ensures SafetyAfter(start, o, SafetyTaken(start, order, o), Restored(payload), After(start, log).safety)
    ensures SnapshotWhileAwake(start, log) <==> start.run.Partial? && SafetyTaken(start, order, o)
    ensures OverwriteWhileAwake(start, log) <==>
      start.run.Partial? && SafetyTaken(start, order, o) && Admits(order, o) && exists v :: Targeted(order, o, v)
    ensures payload.alreadyRunning ==> (After(start, log).run.Up? <==> o.restart.Starts?)
    ensures start.run.Up? && o.stops && !o.wait.Settles? ==> After(start, log).run.Unsettled?
    ensures var w := After(start, log);
      w.sent == [payload] && !w.locked && w.reserved == (payload.status.Success? && !payload.alreadyRunning)
    ensures FileEvents(log) ==
      (if SafetyTaken(start, order, o)
       then WritingLog(Payload(Overwriting, "", Some(o.reported), false), o.noteWriting) else [])
      + WritingLog(payload, o.resultWriting)
    ensures After(start, log).file ==
      if o.acked then Missing else
      FileAfter(if SafetyTaken(start, order, o)
                then FileAfter(Missing, Payload(Overwriting, "", Some(o.reported), false), o.noteWriting) else Missing,
                payload, o.resultWriting)
  {
    hide Proper, After, Fits, Succeeds, Delivered, SafetyTaken, Admits, Targeted, StartsDatabases, SafetyAfter,
      FailureCode, SnapshotWhileAwake, OverwriteWhileAwake, Entry;
    var job := new Job(start, order, o);
    EntryIsUnarmed(start, order, o);
    job.Try();
    ghost var tried := job.world;
    Finish(job);
    if Restored(job.payload) {
      DeliveredSince(start, order, o, tried, job.world);
    }
    AwakeIff(start, job.log);
    return job.log, job.payload;
  }

  /** The finally block. */
  method Finish(job: Job)
    requires job.Concluded() && (job.databasesStarted ==> job.overwriteStarted)
    modifies job`world, job`log
    ensures Proper(job.start, Barred(job.order, job.o), job.log) && job.world == After(job.start, job.log)
    ensures job.world.volumes == old(job.world.volumes) && job.world.loaded == old(job.world.loaded)
    ensures job.world.safety == old(job.world.safety)
    ensures job.world.snapshotAwake == old(job.world.snapshotAwake)
    ensures job.world.overwriteAwake == old(job.world.overwriteAwake)
    ensures job.world.run ==
      if Restored(job.payload) then old(job.world.run)
      else if job.start.run.Up? && !job.overwriteStarted then
        (if job.o.restart.Starts? && !old(job.world.run).Unsettled? then Up else old(job.world.run))
      else if job.databasesStarted && job.o.teardown then (if job.o.teardownWait.Settles? then Down else Unsettled)
      else old(job.world.run)
    ensures job.world.sent == [job.payload] && !job.world.locked && job.world.reserved == StartFollows(job.payload)
    ensures job.world.file ==
      if job.o.acked then Missing else FileAfter(old(job.world.file), job.payload, job.o.resultWriting)
    ensures FileEvents(job.log) == old(FileEvents(job.log)) + WritingLog(job.payload, job.o.resultWriting)
  {
    hide *;
    job.Undo();
    job.Conclude();
  }

  lemma EntryIsUnarmed(start: World, order: Order, o: Outside)
    requires Fits(start, order, o)
    ensures start.locked && !start.reserved && start.sent == [] && start.loaded == map[] && start.noted.None?
    ensures start.file.Missing? && !start.snapshotAwake && !start.overwriteAwake
    ensures start.run.Up? || start.run.Down? || start.run.Partial? || start.run.Absent?
    ensures Entry(start)
  {
  }
}
