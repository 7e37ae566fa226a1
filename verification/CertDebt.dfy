/**
 The owed-report ledger of certificate renewal, across crashes.

 A World is what outlives the process: the ledger file, the mints the manager
 may hold unresolved, and the instances on the node. The worker's methods log
 every effect they have on it, in order, so a crash at any step leaves the
 World reached by some prefix of the log.
 */
module CertDebt {
  type Instance = string
  type Ledger = map<Instance, string>

  datatype World = World(disk: Ledger, pending: set<Instance>, node: set<Instance>)

  datatype Event =
    | Write(ledger: Ledger)                   // os.replace of the ledger file
    | Mint(id: Instance, issued: bool)        // a mint request, and whether the manager issued
    | Report(id: Instance, settled: bool)     // a report request, and whether it left nothing to reconcile
    | Depart(ids: set<Instance>)              // instances leave the node
    | Arrive(ids: set<Instance>)              // instances join it; the manager holds no mint for them

  function Apply(w: World, e: Event): World {
    match e
    case Write(ledger) => w.(disk := ledger)
    case Mint(id, issued) => if issued then w.(pending := w.pending + {id}) else w
    case Report(id, settled) => if settled then w.(pending := w.pending - {id}) else w
    case Depart(ids) => w.(node := w.node - ids)
    case Arrive(ids) => w.(node := w.node + (ids - w.pending))
  }

  function After(w: World, log: seq<Event>): World {
    if log == [] then w else Apply(After(w, log[..|log| - 1]), log[|log| - 1])
  }

  /** The file names every instance on the node whose mint the manager may still hold. */
  predicate Safe(w: World) {
    w.pending * w.node <= w.disk.Keys
  }

  /** A mint is asked for, and a report sent, only with the debt on file. */
  predicate Owing(w: World, e: Event) {
    e.Mint? || e.Report? ==> e.id in w.disk
  }

  /** Wherever the process stops, the World it leaves is safe; and every request to the manager found its debt filed. */
  ghost predicate SafeThroughout(w: World, log: seq<Event>) {
    && (forall k :: 0 <= k <= |log| ==> Safe(After(w, log[..k])))
    && (forall k :: 0 <= k < |log| ==> Owing(After(w, log[..k]), log[k]))
  }

  lemma SafeWithDebt(w: World, ledger: Ledger, id: Instance)
    requires Safe(w)
    requires w.disk.Keys <= ledger.Keys || (w.disk.Keys - {id} <= ledger.Keys && (id !in w.pending || id !in w.node))
    ensures Safe(w.(disk := ledger))
  {
  }

  lemma SafeReport(w: World, id: Instance)
    requires Safe(w)
    ensures Safe(Apply(w, Report(id, true))) && Safe(Apply(w, Report(id, false)))
  {
  }

  lemma AfterAppend(w: World, log: seq<Event>, e: Event)
    ensures After(w, log + [e]) == Apply(After(w, log), e)
    ensures SafeThroughout(w, log) && Owing(After(w, log), e) && Safe(Apply(After(w, log), e)) ==>
      SafeThroughout(w, log + [e])
  {
    hide Safe, Owing;
    var more := log + [e];
    assert more[..|log|] == log;
    if SafeThroughout(w, log) && Owing(After(w, log), e) && Safe(Apply(After(w, log), e)) {
      forall k | 0 <= k <= |log| + 1
        ensures Safe(After(w, more[..k])) && (k <= |log| ==> Owing(After(w, more[..k]), more[k]))
      {
        if k < |log| {
          assert more[..k] == log[..k];
        } else if k == |log| {
          assert log[..k] == log;
        } else {
          assert more[..k] == more;
        }
      }
    }
  }

  lemma Assoc<T>(a: seq<T>, b: seq<T>, c: seq<T>)
    ensures (a + b) + c == a + (b + c)
  {
  }

  /** A mint is safe exactly when the debt is on disk by then, or the instance has left: this is why the debt
      is written before the request, and why a mint that the manager issues after a report already cleared
      the debt is the one thing the ledger does not cover. */
  lemma MintIsSafeIff(w: World, id: Instance)
    requires Safe(w)
    ensures Safe(Apply(w, Mint(id, true))) <==> id in w.disk || id !in w.node
  {
    assert id in (w.pending + {id}) * w.node <==> id in w.node;
  }

  // ---- The answers of the manager ------------------------------------------------------

  datatype ReportAnswer =
    | Confirmed               // 200
    | Rejected                // 409: the manager acted on it
    | Unauthorized            // 401, 403
    | Disabled                // 404 with an empty body
    | Terminal                // any other status below 500
    | Unanswered(settled: bool)  // 5xx, or no answer at all; the manager may have acted

  /** The manager's side: whether it has nothing left to reconcile once it gave this answer. A refusal for the token
      or for renewal as a whole settles nothing. */
  predicate Settles(a: ReportAnswer) {
    match a
    case Confirmed => true
    case Rejected => true
    case Unauthorized => false
    case Disabled => false
    case Terminal => true
    case Unanswered(settled) => settled
  }

  /** The worker's: whether an answer makes _report drop the debt. */
  predicate Clears(a: ReportAnswer) {
    a.Confirmed? || a.Rejected? || a.Terminal?
  }

  /** The first answer that is not retried decides. */
  function Decided(answers: seq<ReportAnswer>): bool {
    if answers == [] then false
    else if answers[0].Unanswered? then Decided(answers[1..])
    else Clears(answers[0])
  }

  /** The first answer that is an answer is one of the three that end a debt. */
  lemma {:induction false} DecidedIff(answers: seq<ReportAnswer>)
    ensures Decided(answers) <==>
      exists i :: 0 <= i < |answers| && (answers[i].Confirmed? || answers[i].Rejected? || answers[i].Terminal?)
                  && forall j :: 0 <= j < i ==> answers[j].Unanswered?
  {
    if answers != [] && answers[0].Unanswered? {
      var rest := answers[1..];
      DecidedIff(rest);
      if i :| 0 <= i < |rest| && (rest[i].Confirmed? || rest[i].Rejected? || rest[i].Terminal?)
              && forall j :: 0 <= j < i ==> rest[j].Unanswered? {
        assert answers[i + 1] == rest[i];
        assert forall j :: 0 < j < i + 1 ==> answers[j] == rest[j - 1];
      }
      if i :| 0 <= i < |answers| && (answers[i].Confirmed? || answers[i].Rejected? || answers[i].Terminal?)
              && forall j :: 0 <= j < i ==> answers[j].Unanswered? {
        assert answers[i] == rest[i - 1];
        assert forall j :: 0 <= j < i - 1 ==> rest[j] == answers[j + 1];
      }
    }
  }

  datatype MintAnswer =
    | Issued                  // 200
    | Lost(issued: bool)      // no answer, or one that cannot be read; raised
    | RefusedForNode          // disabled, rate limited or unauthorized; raised, ends the pass
    | RefusedForInstance      // any other status but 200

  const REPORT_ATTEMPTS := 3

  datatype Outcome = Renewed | NotRenewed | Skipped | Raised | EndsPass

  /** What one instance meets during a pass. */
  datatype Visit = Visit(
    id: Instance,
    departs: set<Instance>,             // who leaves the node meanwhile
    running: bool,
    probed: bool,                       // the debt path could read the sidecar
    debtAnswers: seq<ReportAnswer>,
    admitted: bool,                     // the lock was taken, and no guard or not-due check stopped it
    servedNow: string,                  // what the debt path's probe reads
    before: string,                     // the certificate served before the mint
    served: string,                     // the one served at the end
    mint: MintAnswer,
    installs: bool,
    takes: bool,                        // the sidecar serves the new certificate in the end
    answers: seq<ReportAnswer>)

  predicate WellFormed(v: Visit) {
    |v.debtAnswers| == 3 && |v.answers| == 3
  }

  // ---- The ledger one visit leaves ---------------------------------------------------

  function LedgerAfterReport(l: Ledger, id: Instance, served: string, answers: seq<ReportAnswer>): Ledger {
    if Decided(answers) then l - {id} else l[id := served]
  }

  function LedgerAfterMint(l: Ledger, v: Visit): Ledger {
    match v.mint
    case RefusedForNode => l
    case RefusedForInstance => l
    case Lost(_) => if v.id in l then l else l[v.id := v.before]
    case Issued => LedgerAfterReport(l, v.id, if v.installs then v.served else v.before, v.answers)
  }

  function LedgerAfterVisit(l: Ledger, v: Visit): Ledger {
    var l1 := if PaysDebt(l, v) then LedgerAfterReport(l, v.id, v.servedNow, v.debtAnswers) else l;
    if v.admitted then LedgerAfterMint(l1, v) else l1
  }

  // ---- The effects of one visit, in order -----------------------------------------------

  /** The report requests, and the write that takes the debt off the ledger. */
  function AnswersLog(l: Ledger, id: Instance, answers: seq<ReportAnswer>): seq<Event> {
    if answers == [] then []
    else
      var a := answers[0];
      var sent := [Report(id, Settles(a))];
      if a.Unanswered? then sent + AnswersLog(l, id, answers[1..])
      else if Clears(a) then sent + [Write(l - {id})]
      else sent
  }

  function ReportLog(l: Ledger, id: Instance, served: string, answers: seq<ReportAnswer>): seq<Event> {
    [Write(l[id := served])] + AnswersLog(l[id := served], id, answers)
  }

  predicate IssuesMint(mint: MintAnswer) {
    mint.Issued? || (mint.Lost? && mint.issued)
  }

  function MintLog(l: Ledger, v: Visit): seq<Event> {
    var owed := if v.id in l then l else l[v.id := v.before];
    var asked := (if v.id in l then [] else [Write(owed)]) + [Mint(v.id, IssuesMint(v.mint))];
    match v.mint
    case Lost(_) => asked
    case Issued => asked + ReportLog(owed, v.id, if v.installs then v.served else v.before, v.answers)
    case _ => asked + (if v.id in l then [] else [Write(l)])
  }

  predicate PaysDebt(l: Ledger, v: Visit) {
    v.id in l && v.probed
  }

  function VisitLog(l: Ledger, v: Visit): seq<Event> {
    var paid := if PaysDebt(l, v) then ReportLog(l, v.id, v.servedNow, v.debtAnswers) else [];
    var l1 := if PaysDebt(l, v) then LedgerAfterReport(l, v.id, v.servedNow, v.debtAnswers) else l;
    if v.admitted then paid + MintLog(l1, v) else paid
  }

  /** The pass over the instances, up to the first answer that ends it. */
  function LedgerAfterVisits(l: Ledger, statuses: set<Instance>, visits: seq<Visit>): Ledger
    decreases visits
  {
    if visits == [] then l
    else
      var v := visits[0];
      if v.id !in statuses || !v.running then LedgerAfterVisits(l, statuses, visits[1..])
      else if v.admitted && v.mint.RefusedForNode? then LedgerAfterVisit(l, v)
      else LedgerAfterVisits(LedgerAfterVisit(l, v), statuses, visits[1..])
  }

  function VisitsLog(l: Ledger, statuses: set<Instance>, visits: seq<Visit>): seq<Event>
    decreases visits
  {
    if visits == [] then []
    else
      var v := visits[0];
      [Depart(v.departs)] +
      (if v.id !in statuses || !v.running then VisitsLog(l, statuses, visits[1..])
       else if v.admitted && v.mint.RefusedForNode? then VisitLog(l, v)
       else VisitLog(l, v) + VisitsLog(LedgerAfterVisit(l, v), statuses, visits[1..]))
  }

  /** Whom a pass turns to: only running instances of its status sweep, and for a mint only where nothing stopped it. */
  predicate TurnsTo(statuses: set<Instance>, visits: seq<Visit>, e: Event) {
    match e
    case Mint(id, _) =>
      exists i :: 0 <= i < |visits| && visits[i].id == id && id in statuses && visits[i].running && visits[i].admitted
    case Report(id, _) => exists i :: 0 <= i < |visits| && visits[i].id == id && id in statuses && visits[i].running
    case _ => true
  }

  lemma {:induction false} AnswersAreReports(l: Ledger, id: Instance, answers: seq<ReportAnswer>)
    ensures forall e :: e in AnswersLog(l, id, answers) ==> (e.Report? && e.id == id) || e.Write?
  {
    if answers != [] {
      AnswersAreReports(l, id, answers[1..]);
    }
  }

  lemma VisitTurnsTo(l: Ledger, v: Visit, e: Event)
    requires e in VisitLog(l, v)
    ensures e.Write? || (e.Report? && e.id == v.id) || (e.Mint? && e.id == v.id && v.admitted)
  {
    hide AnswersLog, LedgerAfterReport;
    AnswersAreReports(l[v.id := v.servedNow], v.id, v.debtAnswers);
    var l1 := if PaysDebt(l, v) then LedgerAfterReport(l, v.id, v.servedNow, v.debtAnswers) else l;
    var owed := if v.id in l1 then l1 else l1[v.id := v.before];
    var told := if v.installs then v.served else v.before;
    AnswersAreReports(owed[v.id := told], v.id, v.answers);
  }

  lemma {:induction false} PassTurnsTo(l: Ledger, statuses: set<Instance>, visits: seq<Visit>, e: Event)
    requires e in VisitsLog(l, statuses, visits)
    ensures TurnsTo(statuses, visits, e)
    decreases visits
  {
    hide VisitLog, LedgerAfterVisit;
    var v, rest := visits[0], visits[1..];
    var here := v.id in statuses && v.running;
    if here && e in VisitLog(l, v) {
      VisitTurnsTo(l, v, e);
    } else if e != Depart(v.departs) {
      PassTurnsTo(if here then LedgerAfterVisit(l, v) else l, statuses, rest, e);
      assert forall i :: 0 <= i < |rest| ==> rest[i] == visits[i + 1];
    }
  }

  /** An answer that speaks for the whole node ends the pass: whoever would have come after it is not turned to. */
  lemma {:induction false} NodeRefusalEndsPass(l: Ledger, statuses: set<Instance>, before: seq<Visit>, v: Visit,
                                               rest: seq<Visit>)
    requires v.id in statuses && v.running && v.admitted && v.mint.RefusedForNode?
    ensures VisitsLog(l, statuses, before + ([v] + rest)) == VisitsLog(l, statuses, before + [v])
    ensures LedgerAfterVisits(l, statuses, before + ([v] + rest)) == LedgerAfterVisits(l, statuses, before + [v])
    decreases before
  {
    hide VisitLog, LedgerAfterVisit;
    var long, short := before + ([v] + rest), before + [v];
    if before != [] {
      var u := before[0];
      assert long[0] == u == short[0];
      assert long[1..] == before[1..] + ([v] + rest) && short[1..] == before[1..] + [v];
      NodeRefusalEndsPass(l, statuses, before[1..], v, rest);
      NodeRefusalEndsPass(LedgerAfterVisit(l, u), statuses, before[1..], v, rest);
    } else {
      assert long[0] == v == short[0];
    }
  }

  function Kept(l: Ledger, statuses: set<Instance>): Ledger {
    map id | id in l && id in statuses :: l[id]
  }

  datatype Pass = Pass(arrivals: set<Instance>, visits: seq<Visit>)

  function NodeAt(w: World, pass: Pass): set<Instance> {
    Apply(w, Arrive(pass.arrivals)).node
  }

  /** The ledger a pass leaves. */
  function LedgerAfterPass(w: World, pass: Pass): Ledger {
    Kept(LedgerAfterVisits(w.disk, NodeAt(w, pass), pass.visits), NodeAt(w, pass))
  }

  /** And its effects. */
  function PassLog(w: World, pass: Pass): seq<Event> {
    [Arrive(pass.arrivals)] + VisitsLog(w.disk, NodeAt(w, pass), pass.visits) + [Write(LedgerAfterPass(w, pass))]
  }

  /** Every effect of the passes of one process. */
  function LifeLog(w: World, passes: seq<Pass>): seq<Event> {
    if passes == [] then []
    else
      var n := |passes| - 1;
      LifeLog(w, passes[..n]) + PassLog(After(w, LifeLog(w, passes[..n])), passes[n])
  }

  /** A process: the passes it would run, and the step of its log at which it is killed. */
  datatype Life = Life(passes: seq<Pass>, killedAt: nat)

  // ---- The worker ------------------------------------------------------------------------

  class Renewal {
    var unconfirmed: Ledger
    var log: seq<Event>
    const start: World

    /** A new process: nothing in memory. */
    constructor (w: World)
      requires Safe(w)
      ensures start == w && log == [] && unconfirmed == map[]
      ensures SafeThroughout(start, log) && Safe(Now())
    {
      start := w;
      unconfirmed, log := map[], [];
    }

    function Now(): World
      reads this
    {
      After(start, log)
    }

    /** Safe at every step so far, and the memory agrees with the file. */
    ghost predicate Synced()
      reads this
    {
      SafeThroughout(start, log) && Safe(Now()) && Now().disk == unconfirmed
    }

    method Emit(e: Event)
      requires SafeThroughout(start, log) && Owing(Now(), e) && Safe(Apply(Now(), e))
      modifies this`log
      ensures log == old(log) + [e] && Now() == Apply(old(Now()), e)
      ensures SafeThroughout(start, log) && Safe(Now())
    {
      AfterAppend(start, log, e);
      log := log + [e];
    }

    /** _load_unconfirmed: entries already in memory win. */
    method LoadUnconfirmed(stored: Ledger)
      requires SafeThroughout(start, log) && Safe(Now()) && stored == Now().disk
      requires unconfirmed == map[] || unconfirmed == Now().disk
      modifies this`unconfirmed
      ensures Synced() && unconfirmed == stored
    {
      unconfirmed := stored + unconfirmed;
    }

    method SaveUnconfirmed()
      requires SafeThroughout(start, log) && Safe(Now().(disk := unconfirmed))
      modifies this`log
      ensures Synced() && log == old(log) + [Write(unconfirmed)]
      ensures Now() == old(Now()).(disk := unconfirmed)
    {
      Emit(Write(unconfirmed));
    }

    method ClearDebt(id: Instance)
      requires Synced() && (id !in Now().pending || id !in Now().node)
      modifies this
      ensures Synced() && unconfirmed == old(unconfirmed) - {id}
      ensures log == if id in old(unconfirmed) then old(log) + [Write(unconfirmed)] else old(log)
      ensures Now().pending == old(Now()).pending && Now().node == old(Now()).node
    {
      if id in unconfirmed {
        unconfirmed := unconfirmed - {id};
        SafeWithDebt(Now(), unconfirmed, id);
        SaveUnconfirmed();
      } else {
        assert unconfirmed == unconfirmed - {id};
      }
    }

    /** _report: the debt is on disk before the first request, and only a decisive answer takes it off. */
    method SendReport(id: Instance, served: string, answers: seq<ReportAnswer>)
      requires Synced() && |answers| == 3
      modifies this
      ensures Synced() && unconfirmed == LedgerAfterReport(old(unconfirmed), id, served, answers)
      ensures log == old(log) + ReportLog(old(unconfirmed), id, served, answers)
      ensures id !in unconfirmed <==>
        exists i :: 0 <= i < |answers| && (answers[i].Confirmed? || answers[i].Rejected? || answers[i].Terminal?)
                    && forall j :: 0 <= j < i ==> answers[j].Unanswered?
      ensures unconfirmed - {id} == old(unconfirmed) - {id} && (id in unconfirmed ==> unconfirmed[id] == served)
      ensures Now().pending <= old(Now()).pending && Now().node == old(Now()).node
    {
      hide SafeThroughout, After, Safe;
      DecidedIff(answers);
      ghost var owed := unconfirmed[id := served];
      ghost var all := old(log) + ReportLog(old(unconfirmed), id, served, answers);
      unconfirmed := unconfirmed[id := served];
      SafeWithDebt(Now(), unconfirmed, id);
      SaveUnconfirmed();
      Assoc(old(log), [Write(owed)], AnswersLog(owed, id, answers));
      assert answers[0..] == answers;
      var attempt := 0;
      while attempt < REPORT_ATTEMPTS
        invariant 0 <= attempt <= REPORT_ATTEMPTS
        invariant Synced() && unconfirmed == owed
        invariant log + AnswersLog(owed, id, answers[attempt..]) == all
        invariant Now().pending <= old(Now()).pending && Now().node == old(Now()).node
        invariant Decided(answers) == Decided(answers[attempt..])
      {
        var answer := answers[attempt];
        ghost var rest := answers[attempt + 1..];
        assert answers[attempt..][0] == answer && answers[attempt..][1..] == rest;
        ghost var sent := [Report(id, Settles(answer))];
        Assoc(log, sent, AnswersLog(owed, id, rest));
        Assoc(log, sent, [Write(owed - {id})]);
        SafeReport(Now(), id);
        Emit(Report(id, Settles(answer)));
        if answer.Confirmed? || answer.Rejected? {
          ClearDebt(id);
          assert unconfirmed == old(unconfirmed) - {id};
          return;
        }
        if answer.Unauthorized? || answer.Disabled? {
          break;
        }
        if answer.Terminal? {
          ClearDebt(id);
          assert unconfirmed == old(unconfirmed) - {id};
          return;
        }
        attempt := attempt + 1;
      }
    }

    /** _renew_locked from the mint on. */
    method RenewLocked(v: Visit) returns (outcome: Outcome)
      requires Synced() && WellFormed(v)
      modifies this
      ensures Synced() && unconfirmed == LedgerAfterMint(old(unconfirmed), v)
      ensures log == old(log) + MintLog(old(unconfirmed), v)
      ensures v.mint.RefusedForNode? || v.mint.RefusedForInstance? ==> unconfirmed == old(unconfirmed)
      ensures Mint(v.id, v.mint.Issued? || v.mint == Lost(true)) in log
      ensures v.mint.Lost? ==>
        unconfirmed == if v.id in old(unconfirmed) then old(unconfirmed) else old(unconfirmed)[v.id := v.before]
      ensures v.mint.Issued? && v.id in unconfirmed ==>
        unconfirmed[v.id] == if v.installs then v.served else v.before
      ensures v.mint.Issued? ==>
        (v.id !in unconfirmed <==>
           exists i :: 0 <= i < 3 && (v.answers[i].Confirmed? || v.answers[i].Rejected? || v.answers[i].Terminal?)
                       && forall j :: 0 <= j < i ==> v.answers[j].Unanswered?)
      ensures unconfirmed - {v.id} == old(unconfirmed) - {v.id}
      ensures Now().node == old(Now()).node
      ensures outcome.Renewed? <==> v.mint.Issued? && v.installs && v.takes
      ensures outcome.EndsPass? <==> v.mint.RefusedForNode?
    {
      hide SafeThroughout, After, Decided, Safe, ReportLog;
      var owedBefore := v.id in unconfirmed;
      if !owedBefore {
        NothingPending(Now(), v.id);
        unconfirmed := unconfirmed[v.id := v.before];
        SafeWithDebt(Now(), unconfirmed, v.id);
        SaveUnconfirmed();
      }
      MintIsSafeIff(Now(), v.id);
      ghost var mint := Mint(v.id, IssuesMint(v.mint));
      ghost var asked := (if owedBefore then [] else [Write(unconfirmed)]) + [mint];
      Assoc(old(log), [Write(unconfirmed)], [mint]);
      assert mint in asked;
      Emit(Mint(v.id, IssuesMint(v.mint)));
      assert log == old(log) + asked;
      match v.mint {
        case Lost(_) =>
          return Raised;
        case RefusedForNode =>
          GiveUp(v.id, owedBefore, old(unconfirmed));
          Assoc(old(log), asked, if owedBefore then [] else [Write(old(unconfirmed))]);
          return EndsPass;
        case RefusedForInstance =>
          GiveUp(v.id, owedBefore, old(unconfirmed));
          Assoc(old(log), asked, if owedBefore then [] else [Write(old(unconfirmed))]);
          return NotRenewed;
        case Issued =>
          ghost var l := unconfirmed;
          var told := if v.installs then v.served else v.before;
          SendReport(v.id, told, v.answers);
          Assoc(old(log), asked, ReportLog(l, v.id, told, v.answers));
          assert l - {v.id} == old(unconfirmed) - {v.id};
          assert l[v.id := told] == old(unconfirmed)[v.id := told];
          return if v.installs && v.takes then Renewed else NotRenewed;
      }
    }

    /** A definitive refusal: a debt filed for this mint goes, because the manager issued nothing. */
    method GiveUp(id: Instance, owedBefore: bool, ghost before: Ledger)
      requires Synced() && id in unconfirmed
      requires if owedBefore then unconfirmed == before else unconfirmed - {id} == before
      requires owedBefore || id !in Now().pending || id !in Now().node
      modifies this
      ensures Synced() && unconfirmed == before
      ensures log == old(log) + if owedBefore then [] else [Write(before)]
      ensures Now().pending == old(Now()).pending && Now().node == old(Now()).node
    {
      if !owedBefore {
        ClearDebt(id);
      }
    }

    /** renew_one: the debt path, then the renewal. */
    method RenewOne(v: Visit) returns (outcome: Outcome)
      requires Synced() && WellFormed(v)
      modifies this
      ensures Synced() && unconfirmed == LedgerAfterVisit(old(unconfirmed), v)
      ensures log == old(log) + VisitLog(old(unconfirmed), v)
      ensures !v.admitted && !(v.id in old(unconfirmed) && v.probed) ==>
        log == old(log) && unconfirmed == old(unconfirmed)
      ensures !v.admitted && v.id in old(unconfirmed) && v.probed ==>
        && (v.id in unconfirmed ==> unconfirmed[v.id] == v.servedNow)
        && (v.id !in unconfirmed <==>
              exists i :: 0 <= i < 3
                          && (v.debtAnswers[i].Confirmed? || v.debtAnswers[i].Rejected? || v.debtAnswers[i].Terminal?)
                          && forall j :: 0 <= j < i ==> v.debtAnswers[j].Unanswered?)
      ensures v.admitted ==> Mint(v.id, v.mint.Issued? || v.mint == Lost(true)) in log
      ensures Now().node == old(Now()).node
      ensures outcome.Renewed? <==> v.admitted && v.mint.Issued? && v.installs && v.takes
      ensures outcome.EndsPass? <==> v.admitted && v.mint.RefusedForNode?
    {
      hide SafeThroughout, After, Safe, ReportLog, MintLog, LedgerAfterReport, LedgerAfterMint;
      if v.id in unconfirmed && v.probed {
        SendReport(v.id, v.servedNow, v.debtAnswers);
      }
      ghost var paid := if PaysDebt(old(unconfirmed), v) then
        ReportLog(old(unconfirmed), v.id, v.servedNow, v.debtAnswers) else [];
      assert log == old(log) + paid;
      if !v.admitted {
        return Skipped;
      }
      Assoc(old(log), paid, MintLog(unconfirmed, v));
      outcome := RenewLocked(v);
    }

    /** _renew_all_locked over the instances the status sweep found. */
    method RenewAll(statuses: set<Instance>, visits: seq<Visit>)
      requires Synced() && statuses == Now().node
      requires forall v :: v in visits ==> WellFormed(v)
      modifies this
      ensures Synced() && unconfirmed == Kept(LedgerAfterVisits(old(unconfirmed), statuses, visits), statuses)
      ensures log == old(log) + VisitsLog(old(unconfirmed), statuses, visits) + [Write(unconfirmed)]
      ensures unconfirmed.Keys <= statuses
    {
      hide SafeThroughout, After, Safe, VisitLog, LedgerAfterVisit;
      ghost var all := old(log) + VisitsLog(old(unconfirmed), statuses, visits);
      var i := 0;
      var ended := false;
      assert visits[0..] == visits;
      while i < |visits| && !ended
        invariant i <= |visits| && Synced() && Now().node <= statuses
        invariant LedgerAfterVisits(old(unconfirmed), statuses, visits)
          == if ended then unconfirmed else LedgerAfterVisits(unconfirmed, statuses, visits[i..])
        invariant all == if ended then log else log + VisitsLog(unconfirmed, statuses, visits[i..])
        decreases |visits| - i
      {
        var v := visits[i];
        assert visits[i..][0] == v && visits[i..][1..] == visits[i + 1..];
        VisitsLogStep(unconfirmed, statuses, visits, i, log);
        SafeDeparture(Now(), v.departs);
        Emit(Depart(v.departs));
        if v.id in statuses && v.running {
          var outcome := RenewOne(v);
          ended := outcome.EndsPass?;
        }
        i := i + 1;
      }
      assert !ended ==> visits[i..] == [];
      SafeWhenKept(Now(), statuses);
      unconfirmed := Kept(unconfirmed, statuses);
      SaveUnconfirmed();
    }

    /** One pass, as the worker starts it. */
    method RunPass(pass: Pass)
      requires SafeThroughout(start, log) && Safe(Now())
      requires unconfirmed == map[] || unconfirmed == Now().disk
      requires forall v :: v in pass.visits ==> WellFormed(v)
      modifies this
      ensures Synced() && unconfirmed == LedgerAfterPass(old(Now()), pass)
      ensures log == old(log) + PassLog(old(Now()), pass)
    {
      hide SafeThroughout, After, Safe, VisitsLog, LedgerAfterVisits;
      ghost var w := Now();
      SafeArrival(w, pass.arrivals);
      Emit(Arrive(pass.arrivals));
      LoadUnconfirmed(Now().disk);
      RenewAll(Now().node, pass.visits);
      PassLogIs(old(log), w, pass);
    }
  }

  lemma VisitsLogStep(l: Ledger, statuses: set<Instance>, visits: seq<Visit>, i: nat, log: seq<Event>)
    requires i < |visits|
    ensures var v, left := visits[i], log + [Depart(visits[i].departs)];
      log + VisitsLog(l, statuses, visits[i..]) ==
        if v.id !in statuses || !v.running then left + VisitsLog(l, statuses, visits[i + 1..])
        else if v.admitted && v.mint.RefusedForNode? then left + VisitLog(l, v)
        else left + VisitLog(l, v) + VisitsLog(LedgerAfterVisit(l, v), statuses, visits[i + 1..])
  {
    hide VisitLog, LedgerAfterVisit;
    var v, rest := visits[i], visits[i + 1..];
    assert visits[i..][0] == v && visits[i..][1..] == rest;
    if v.id !in statuses || !v.running {
      Assoc(log, [Depart(v.departs)], VisitsLog(l, statuses, rest));
    } else if v.admitted && v.mint.RefusedForNode? {
      Assoc(log, [Depart(v.departs)], VisitLog(l, v));
    } else {
      var more := VisitsLog(LedgerAfterVisit(l, v), statuses, rest);
      Assoc(log, [Depart(v.departs)], VisitLog(l, v) + more);
      Assoc(log + [Depart(v.departs)], VisitLog(l, v), more);
    }
  }

  lemma PassLogIs(log: seq<Event>, w: World, pass: Pass)
    ensures ((log + [Arrive(pass.arrivals)]) + VisitsLog(w.disk, NodeAt(w, pass), pass.visits))
      + [Write(LedgerAfterPass(w, pass))] == log + PassLog(w, pass)
  {
    hide VisitsLog, LedgerAfterPass;
    var a, b, c := [Arrive(pass.arrivals)], VisitsLog(w.disk, NodeAt(w, pass), pass.visits),
      [Write(LedgerAfterPass(w, pass))];
    Assoc(log, a, b);
    Assoc(log, a + b, c);
  }

  lemma NothingPending(w: World, id: Instance)
    requires Safe(w) && id !in w.disk
    ensures id !in w.pending || id !in w.node
  {
    assert id in w.pending && id in w.node ==> id in w.pending * w.node;
  }

  lemma SafeDeparture(w: World, ids: set<Instance>)
    requires Safe(w)
    ensures Safe(Apply(w, Depart(ids)))
  {
  }

  lemma SafeArrival(w: World, ids: set<Instance>)
    requires Safe(w)
    ensures Safe(Apply(w, Arrive(ids)))
  {
  }

  lemma SafeWhenKept(w: World, statuses: set<Instance>)
    requires Safe(w) && w.node <= statuses
    ensures Safe(w.(disk := Kept(w.disk, statuses)))
  {
  }

  /** What is left when each process has been killed at its step. */
  function AfterLives(w0: World, lives: seq<Life>, logs: seq<seq<Event>>): World
    requires |lives| == |logs|
    decreases |lives|
  {
    if lives == [] then w0
    else
      var n := |lives| - 1;
      After(AfterLives(w0, lives[..n], logs[..n]), logs[n][..Upto(lives[n], logs[n])])
  }

  function Upto(life: Life, log: seq<Event>): (k: nat)
    ensures k <= |log|
  {
    if life.killedAt < |log| then life.killedAt else |log|
  }

  /** Every process is safe at each of its steps, from the World the ones before it left. */
  ghost predicate SafeLives(w0: World, lives: seq<Life>, logs: seq<seq<Event>>) {
    && |lives| == |logs|
    && forall i :: 0 <= i < |lives| ==> SafeThroughout(AfterLives(w0, lives[..i], logs[..i]), logs[i])
  }

  /** Each log holds the effects of its process, from the World it found. */
  ghost predicate TheirLogs(w0: World, lives: seq<Life>, logs: seq<seq<Event>>) {
    && |lives| == |logs|
    && forall i :: 0 <= i < |lives| ==> logs[i] == LifeLog(AfterLives(w0, lives[..i], logs[..i]), lives[i].passes)
  }

  lemma OneMoreLog(w0: World, lives: seq<Life>, logs: seq<seq<Event>>, life: Life, log: seq<Event>)
    requires TheirLogs(w0, lives, logs) && log == LifeLog(AfterLives(w0, lives, logs), life.passes)
    ensures TheirLogs(w0, lives + [life], logs + [log])
  {
    hide LifeLog, AfterLives;
    assert (lives + [life])[..|lives|] == lives && (logs + [log])[..|logs|] == logs;
    forall i | 0 <= i < |lives|
      ensures (lives + [life])[..i] == lives[..i] && (logs + [log])[..i] == logs[..i]
    {
    }
  }

  lemma OneMoreLife(w0: World, lives: seq<Life>, logs: seq<seq<Event>>, life: Life, log: seq<Event>)
    requires SafeLives(w0, lives, logs) && SafeThroughout(AfterLives(w0, lives, logs), log)
    ensures SafeLives(w0, lives + [life], logs + [log])
    ensures AfterLives(w0, lives + [life], logs + [log]) == After(AfterLives(w0, lives, logs), log[..Upto(life, log)])
    ensures Safe(AfterLives(w0, lives + [life], logs + [log]))
  {
    hide SafeThroughout, Safe, After;
    assert (lives + [life])[..|lives|] == lives && (logs + [log])[..|logs|] == logs;
    forall i | 0 <= i < |lives| + 1
      ensures SafeThroughout(AfterLives(w0, (lives + [life])[..i], (logs + [log])[..i]), (logs + [log])[i])
    {
      if i < |lives| {
        assert (lives + [life])[..i] == lives[..i] && (logs + [log])[..i] == logs[..i];
      }
    }
    SafeWhenKilled(AfterLives(w0, lives, logs), log, Upto(life, log));
  }

  /** Every run: any number of processes, each killed at any step of any of its passes. Whatever the passes
      met, at every step of every process the file names every instance on the node whose mint the manager
      may still hold. */
  method RunLives(w0: World, lives: seq<Life>) returns (w: World, logs: seq<seq<Event>>)
    requires Safe(w0)
    requires forall life, pass, v :: life in lives && pass in life.passes && v in pass.visits ==> WellFormed(v)
    ensures SafeLives(w0, lives, logs) && w == AfterLives(w0, lives, logs) && Safe(w)
    ensures TheirLogs(w0, lives, logs)
  {
    hide *;
    w, logs := w0, [];
    NoLives(w0);
    for i := 0 to |lives|
      invariant Safe(w) && SafeLives(w0, lives[..i], logs) && TheirLogs(w0, lives[..i], logs)
      invariant |logs| == i && w == AfterLives(w0, lives[..i], logs)
    {
      assert lives[i] in lives;
      var log := RunLife(w, lives[i]);
      OneMoreLife(w0, lives[..i], logs, lives[i], log);
      OneMoreLog(w0, lives[..i], logs, lives[i], log);
      assert lives[..i + 1] == lives[..i] + [lives[i]];
      w, logs := After(w, log[..Upto(lives[i], log)]), logs + [log];
    }
    assert lives[..|lives|] == lives;
  }

  lemma NoLives(w0: World)
    ensures SafeLives(w0, [], []) && TheirLogs(w0, [], []) && AfterLives(w0, [], []) == w0
  {
  }

  lemma SafeWhenKilled(w: World, log: seq<Event>, k: nat)
    requires SafeThroughout(w, log) && k <= |log|
    ensures Safe(After(w, log[..k]))
  {
  }

  /** The passes of one process, were it not killed. The file it leaves is the one its last pass computes. */
  method RunLife(w: World, life: Life) returns (log: seq<Event>)
    requires Safe(w)
    requires forall pass, v :: pass in life.passes && v in pass.visits ==> WellFormed(v)
    ensures SafeThroughout(w, log) && log == LifeLog(w, life.passes)
    ensures life.passes != [] ==>
      var n := |life.passes| - 1;
      After(w, log).disk == LedgerAfterPass(After(w, LifeLog(w, life.passes[..n])), life.passes[n])
  {
    hide SafeThroughout, Safe, PassLog, After, LedgerAfterPass;
    var passes := life.passes;
    var worker := new Renewal(w);
    for j := 0 to |passes|
      invariant worker.start == w && SafeThroughout(w, worker.log) && Safe(worker.Now())
      invariant worker.unconfirmed == map[] || worker.unconfirmed == worker.Now().disk
      invariant worker.log == LifeLog(w, passes[..j])
      invariant j > 0 ==> worker.Now().disk == LedgerAfterPass(After(w, LifeLog(w, passes[..j - 1])), passes[j - 1])
    {
      assert passes[j] in passes;
      assert passes[..j + 1][..j] == passes[..j];
      worker.RunPass(passes[j]);
    }
    assert passes[..|passes|] == passes;
    log := worker.log;
  }
}
