/**
 The socket-only updater: verify everything, snapshot everything, then recreate
 container by container, gate, and roll back on any failure.
 */
module Engine {
  import opened Values
  import opened Versions

  type Name = string
  type Repo = string
  type ImageId = string

  const EXIT_OK := 0
  const EXIT_FAILED_ROLLED_BACK := 1
  const EXIT_FAILED_ROLLBACK_FAILED := 2
  const EXIT_REFUSED := 3

  datatype Container = Container(image: ImageId, running: bool)

  /** What the docker daemon holds of the stack. */
  datatype Docker = Docker(latest: map<Repo, ImageId>, previous: map<Repo, ImageId>, containers: map<Name, Container>)

  // ---- Docker commands ---------------------------------------------------------------------

  datatype Report = Success | Failure | Exception

  /** A command: whether docker did it, and what the caller was told. Docker does not report work it has not
      done; a failure or an exception tells nothing. */
  datatype Cmd = Cmd(took: bool, report: Report)

  predicate Honest(c: Cmd) {
    c.report.Success? ==> c.took
  }

  /** One recreate: the argv may not be buildable, and the container may have no name. */
  datatype Recreate = Recreate(builds: bool, named: bool, stop: Cmd, remove: Cmd, create: Cmd, start: Cmd)

  predicate HonestRecreate(r: Recreate) {
    Honest(r.stop) && Honest(r.remove) && Honest(r.create) && Honest(r.start)
  }

  /** What _do_recreate reports. */
  function Reported(r: Recreate): Report {
    if !r.builds then Exception
    else if !r.named then Failure
    else if r.stop.report.Exception? then Exception
    else if !r.remove.report.Success? then r.remove.report
    else if !r.create.report.Success? then r.create.report
    else r.start.report
  }

  /** The one container it works on, before and after. */
  function Left(was: Option<Container>, image: ImageId, r: Recreate): Option<Container> {
    if !r.builds || !r.named then was
    else
      var stopped := if r.stop.took && was.Some? then Some(was.value.(running := false)) else was;
      if r.stop.report.Exception? then stopped
      else
        var removed := if r.remove.took then None else stopped;
        if !r.remove.report.Success? then removed
        else
          var created := if r.create.took then Some(Container(image, false)) else removed;
          if !r.create.report.Success? then created
          else if r.start.took then Some(Container(image, true)) else created
  }

  /** What a success is worth: a failure of `docker stop` is not looked at, an exception from it is. */
  lemma SuccessIff(r: Recreate)
    ensures Reported(r) == Success <==>
      && r.builds && r.named && r.stop.report != Exception
      && r.remove.report == Success && r.create.report == Success && r.start.report == Success
  {
  }

  function Lookup(containers: map<Name, Container>, name: Name): Option<Container> {
    if name in containers then Some(containers[name]) else None
  }

  /** A recreate that reports success leaves the container running the image asked for; any other leaves the
      old one, possibly stopped, or none, or a new one. */
  lemma RecreateLeaves(was: Option<Container>, image: ImageId, r: Recreate)
    requires HonestRecreate(r)
    ensures Reported(r).Success? ==> Left(was, image, r) == Some(Container(image, true))
    ensures var left := Left(was, image, r);
      left.None? || left.value.image == image || (was.Some? && left.value.image == was.value.image)
  {
  }

  /** _do_recreate: stop, remove, create, start, each step only after the one before. */
  method DoRecreate(was: Option<Container>, image: ImageId, r: Recreate)
    returns (left: Option<Container>, report: Report)
    ensures left == Left(was, image, r) && report == Reported(r)
  {
    left := was;
    if !r.builds {
      return left, Exception;
    }
    if !r.named {
      return left, Failure;
    }
    if r.stop.took && left.Some? {
      left := Some(left.value.(running := false));
    }
    if r.stop.report.Exception? {
      return left, Exception;
    }
    if r.remove.took {
      left := None;
    }
    if !r.remove.report.Success? {
      return left, r.remove.report;
    }
    if r.create.took {
      left := Some(Container(image, false));
    }
    if !r.create.report.Success? {
      return left, r.create.report;
    }
    if r.start.took {
      left := Some(Container(image, true));
    }
    return left, r.start.report;
  }

  // ---- The health gate -----------------------------------------------------------------------

  datatype Readyz = Readyz(ok: bool, id: Option<string>, status: string, reasons: seq<string>)

  /** One poll: the probe, the containers whose image could be read, those running, and the restart count. */
  datatype Poll = Poll(readyz: Readyz, readable: set<Name>, up: set<Name>, restarts: int)

  datatype Verdict = Ready | WrongId | Fatal | DegradedOther | NotApplied | CrashLoop | TimedOut

  const TOLERABLE := {"registration_pending"}

  predicate OtherReason(reasons: seq<string>) {
    exists r :: r in reasons && r !in TOLERABLE
  }

  function ImageRead(d: Docker, p: Poll, n: Name): Option<ImageId> {
    if n in p.readable && n in d.containers then Some(d.containers[n].image) else None
  }

  /** The container does not run the image expected of it; an unknown expectation is not checked. */
  predicate Stale(d: Docker, p: Poll, expected: map<Name, Option<ImageId>>, n: Name) {
    n in expected && expected[n].Some? && ImageRead(d, p, n) != expected[n]
  }

  /** container_running; a container that is not there does not run. */
  predicate Seen(d: Docker, p: Poll, n: Name) {
    n in p.up && n in d.containers
  }

  /** A name has to answer for this greffer only when both ids are known. */
  predicate Foreign(greffer: Option<string>, r: Readyz) {
    greffer.Some? && greffer.value != "" && r.id.Some? && r.id.value != "" && r.id != greffer
  }

  /** What one poll decides; None is "poll again". */
  function Decide(d: Docker, p: Poll, greffer: Option<string>, expected: map<Name, Option<ImageId>>,
                  check: bool, names: seq<Name>, base: int): Option<Verdict>
  {
    var r := p.readyz;
    if r.ok && Foreign(greffer, r) then Some(WrongId)
    else if r.ok && r.status == "fatal" then Some(Fatal)
    else if r.ok && r.status == "degraded" && OtherReason(r.reasons) then Some(DegradedOther)
    else if r.ok && r.status == "ready" && check && (exists n :: n in names && Stale(d, p, expected, n))
    then Some(NotApplied)
    else if r.ok && r.status == "ready" && (forall n :: n in names ==> Seen(d, p, n)) then Some(Ready)
    else if p.restarts - base > 1 then Some(CrashLoop)
    else None
  }

  /** What a verdict says of the poll that gave it. */
  ghost predicate Means(v: Verdict, d: Docker, p: Poll, greffer: Option<string>, expected: map<Name, Option<ImageId>>,
                        check: bool, names: seq<Name>, base: int)
  {
    var r := p.readyz;
    match v
    case WrongId =>
      && r.ok && greffer.Some? && r.id.Some?
      && greffer.value != "" && r.id.value != "" && greffer.value != r.id.value
    case Fatal => r.ok && r.status == "fatal"
    case DegradedOther =>
      r.ok && r.status == "degraded" && exists i :: 0 <= i < |r.reasons| && r.reasons[i] != "registration_pending"
    case NotApplied =>
      && r.ok && r.status == "ready" && check
      && exists n :: n in names && n in expected && expected[n].Some?
                     && !(n in p.readable && n in d.containers && d.containers[n].image == expected[n].value)
    case Ready => r.ok && r.status == "ready" && forall n :: n in names ==> n in p.up && n in d.containers
    case CrashLoop => p.restarts >= base + 2
    case TimedOut => false
  }

  function Rank(v: Verdict): nat {
    match v
    case WrongId => 0
    case Fatal => 1
    case DegradedOther => 2
    case NotApplied => 3
    case Ready => 4
    case CrashLoop => 5
    case TimedOut => 6
  }

  /** A poll decides the first of these that is so, and nothing when none is. */
  lemma VerdictIs(d: Docker, p: Poll, greffer: Option<string>, expected: map<Name, Option<ImageId>>, check: bool,
                  names: seq<Name>, base: int, v: Verdict)
    ensures Decide(d, p, greffer, expected, check, names, base) == Some(v) <==>
      && Means(v, d, p, greffer, expected, check, names, base)
      && forall u :: Rank(u) < Rank(v) ==> !Means(u, d, p, greffer, expected, check, names, base)
  {
    hide OtherReason;
    OtherReasonIff(p.readyz.reasons);
    var r := p.readyz;
    if r.ok && r.status == "ready" && check && exists n :: n in names && Stale(d, p, expected, n) {
      var n :| n in names && Stale(d, p, expected, n);
      assert Means(NotApplied, d, p, greffer, expected, check, names, base);
    }
    var decided := Decide(d, p, greffer, expected, check, names, base);
    if decided.Some? {
      assert Means(decided.value, d, p, greffer, expected, check, names, base);
    }
  }

  lemma OtherReasonIff(reasons: seq<string>)
    ensures OtherReason(reasons) <==> exists i :: 0 <= i < |reasons| && reasons[i] != "registration_pending"
  {
    if r :| r in reasons && r !in TOLERABLE {
      var i :| 0 <= i < |reasons| && reasons[i] == r;
    }
    if i :| 0 <= i < |reasons| && reasons[i] != "registration_pending" {
      assert reasons[i] in reasons && reasons[i] !in TOLERABLE;
    }
  }

  /** The stack as a passed gate saw it. */
  predicate SeenReady(d: Docker, p: Poll, greffer: Option<string>, expected: map<Name, Option<ImageId>>,
                      check: bool, names: seq<Name>)
  {
    && p.readyz.ok && p.readyz.status == "ready" && !Foreign(greffer, p.readyz)
    && (forall n :: n in names ==> Seen(d, p, n))
    && (check ==> forall n :: n in names && n in expected && expected[n].Some? ==>
          n in d.containers && d.containers[n].image == expected[n].value)
  }

  predicate GateSaw(d: Docker, polls: seq<Poll>, greffer: Option<string>, expected: map<Name, Option<ImageId>>,
                    check: bool, names: seq<Name>)
  {
    exists i :: 0 <= i < |polls| && SeenReady(d, polls[i], greffer, expected, check, names)
  }

  predicate Undecided(d: Docker, polls: seq<Poll>, greffer: Option<string>, expected: map<Name, Option<ImageId>>,
                      check: bool, names: seq<Name>, base: int)
  {
    forall i :: 0 <= i < |polls| ==> Decide(d, polls[i], greffer, expected, check, names, base).None?
  }

  /** The first poll that decides says ready. */
  ghost predicate GateReady(d: Docker, polls: seq<Poll>, greffer: Option<string>, expected: map<Name, Option<ImageId>>,
                            check: bool, names: seq<Name>, base: int)
  {
    exists i :: 0 <= i < |polls| && Decide(d, polls[i], greffer, expected, check, names, base) == Some(Ready)
                && Undecided(d, polls[..i], greffer, expected, check, names, base)
  }

  lemma OneVerdict(d: Docker, polls: seq<Poll>, greffer: Option<string>, expected: map<Name, Option<ImageId>>,
                   check: bool, names: seq<Name>, base: int, i: nat, v: Verdict)
    requires i < |polls| && Decide(d, polls[i], greffer, expected, check, names, base) == Some(v)
    requires Undecided(d, polls[..i], greffer, expected, check, names, base)
    ensures GateReady(d, polls, greffer, expected, check, names, base) <==> v.Ready?
  {
    hide Decide;
    forall k | 0 <= k < |polls| && Undecided(d, polls[..k], greffer, expected, check, names, base)
      ensures forall j :: 0 <= j < k ==> Decide(d, polls[j], greffer, expected, check, names, base).None?
    {
      assert forall j :: 0 <= j < k ==> polls[..k][j] == polls[j];
    }
  }

  /** health_gate over the polls its deadline leaves room for. */
  method HealthGate(d: Docker, polls: seq<Poll>, greffer: Option<string>, expected: map<Name, Option<ImageId>>,
                    check: bool, names: seq<Name>, base: int) returns (v: Verdict)
    ensures v.Ready? <==> GateReady(d, polls, greffer, expected, check, names, base)
    ensures v.Ready? ==> GateSaw(d, polls, greffer, expected, check, names)
    ensures v.TimedOut? <==> Undecided(d, polls, greffer, expected, check, names, base)
    ensures !v.TimedOut? ==>
      exists i :: 0 <= i < |polls| && Decide(d, polls[i], greffer, expected, check, names, base) == Some(v)
                  && Undecided(d, polls[..i], greffer, expected, check, names, base)
  {
    for i := 0 to |polls|
      invariant forall j :: 0 <= j < i ==> Decide(d, polls[j], greffer, expected, check, names, base).None?
    {
      var p := polls[i];
      var r := p.readyz;
      ghost var decided := Decide(d, p, greffer, expected, check, names, base);
      assert Undecided(d, polls[..i], greffer, expected, check, names, base);
      if decided.Some? {
        OneVerdict(d, polls, greffer, expected, check, names, base, i, decided.value);
      }
      if r.ok {
        if Foreign(greffer, r) {
          return WrongId;
        }
        if r.status == "fatal" {
          return Fatal;
        }
        if r.status == "degraded" && OtherReason(r.reasons) {
          return DegradedOther;
        }
        if r.status == "ready" {
          if check {
            var applied := true;
            for k := 0 to |names|
              invariant applied ==> forall m :: 0 <= m < k ==> !Stale(d, p, expected, names[m])
              invariant !applied ==> exists n :: n in names && Stale(d, p, expected, n)
            {
              var want := if names[k] in expected then expected[names[k]] else None;
              if want.Some? && ImageRead(d, p, names[k]) != want {
                assert Stale(d, p, expected, names[k]);
                applied := false;
                break;
              }
            }
            if !applied {
              return NotApplied;
            }
          }
          if forall n :: n in names ==> Seen(d, p, n) {
            assert SeenReady(d, p, greffer, expected, check, names);
            return Ready;
          }
        }
      }
      if p.restarts - base > 1 {
        return CrashLoop;
      }
    }
    return TimedOut;
  }

  // ---- The stack -------------------------------------------------------------------------

  const GREFFER_SERVICE := "greffer"

  /** A container of the stack, with everything docker and cosign will answer about it. */
  datatype Member = Member(
    service: string,
    repo: Repo,
    name: Name,
    verified: Option<ImageId>,   // the image of the verified digest; None is a VerifyError
    inspected: bool,
    shown: bool,                 // the inspect names the image
    tagPrevious: Cmd,
    retag: Cmd,
    forward: Recreate,
    imageKnown: bool,            // the id of the verified image can be looked up
    undo: Recreate,
    restoreTag: Cmd,
    undoAgain: Recreate,         // if a first rollback raised
    restoreTagAgain: Cmd)

  predicate HonestMember(m: Member) {
    && Honest(m.tagPrevious) && Honest(m.retag) && HonestRecreate(m.forward)
    && HonestRecreate(m.undo) && HonestRecreate(m.undoAgain) && Honest(m.restoreTag) && Honest(m.restoreTagAgain)
  }

  datatype Plan = Plan(
    stack: seq<Member>,
    targetTag: Option<string>,
    oldVersion: Option<string>,
    newVersion: Option<string>,
    greffer: Option<string>,
    lookupRaises: bool,
    pruneRaises: bool,
    base: int,
    polls: seq<Poll>,
    undoPolls: seq<Poll>,
    undoPollsAgain: seq<Poll>)

  /** One container a service and a repository, all of them there. */
  ghost predicate Fits(plan: Plan, d: Docker) {
    && (forall i, j :: 0 <= i < j < |plan.stack| ==>
          plan.stack[i].name != plan.stack[j].name && plan.stack[i].repo != plan.stack[j].repo)
    && (forall i :: 0 <= i < |plan.stack| ==> HonestMember(plan.stack[i]) && plan.stack[i].name in d.containers)
  }

  /** The image a container is rolled back to, as captured before anything changed. */
  function Captured(d: Docker, m: Member): Option<ImageId> {
    if m.shown && m.name in d.containers then Some(d.containers[m.name].image)
    else if m.repo in d.latest then Some(d.latest[m.repo])
    else None
  }

  /** The image of the inspect comes first, then the one the tag named. */
  lemma CapturedIff(d: Docker, m: Member, image: ImageId)
    requires m.name in d.containers
    ensures Captured(d, m) == Some(image) <==>
      if m.shown then d.containers[m.name].image == image else m.repo in d.latest && d.latest[m.repo] == image
  {
  }

  /** _is_downgrade of the engine: no claim is no downgrade. */
  predicate Backwards(newer: Option<string>, older: Option<string>) {
    IsDowngrade(older, newer) == Some(true)
  }

  /** What has to hold before the first tag moves. */
  predicate Cleared(plan: Plan) {
    && (exists i :: 0 <= i < |plan.stack| && plan.stack[i].service == GREFFER_SERVICE)
    && !(plan.targetTag.Some? && plan.targetTag.value != "" && Backwards(plan.targetTag, plan.oldVersion))
    && forall i :: 0 <= i < |plan.stack| ==> plan.stack[i].verified.Some? && plan.stack[i].inspected
  }

  function Names(stack: seq<Member>): (names: seq<Name>)
    ensures |names| == |stack| && forall i :: 0 <= i < |stack| ==> names[i] == stack[i].name
  {
    seq(|stack|, i requires 0 <= i < |stack| => stack[i].name)
  }

  /** The greffer's container; "" when it has no name. */
  function GrefferName(stack: seq<Member>): Name {
    if stack == [] then ""
    else if stack[0].service == GREFFER_SERVICE then stack[0].name
    else GrefferName(stack[1..])
  }

  function Expected(stack: seq<Member>): map<Name, Option<ImageId>> {
    if stack == [] then map[]
    else
      var m := stack[|stack| - 1];
      Expected(stack[..|stack| - 1])[m.name := if m.imageKnown then m.verified else None]
  }

  /** The first container of the service, by the name it was given. */
  lemma {:induction false} GrefferNameIs(stack: seq<Member>, i: nat)
    requires i < |stack| && stack[i].service == "greffer" && forall j :: 0 <= j < i ==> stack[j].service != "greffer"
    ensures GrefferName(stack) == stack[i].name
  {
    if i > 0 {
      GrefferNameIs(stack[1..], i - 1);
    }
  }

  /** Every container of the stack is looked at, each for its own verified image where its id is known. */
  lemma {:induction false} ExpectedIs(stack: seq<Member>, i: nat)
    requires i < |stack| && forall j, k :: 0 <= j < k < |stack| ==> stack[j].name != stack[k].name
    ensures stack[i].name in Expected(stack)
    ensures Expected(stack)[stack[i].name] == if stack[i].imageKnown then stack[i].verified else None
  {
    var last := |stack| - 1;
    if i < last {
      ExpectedIs(stack[..last], i);
      assert stack[i].name != stack[last].name;
    }
  }

  datatype Exit = Code(code: int) | Crashed
  datatype Phase = Done | Stopped | Threw

  function Put(containers: map<Name, Container>, name: Name, c: Option<Container>): (r: map<Name, Container>)
    ensures Lookup(r, name) == c && forall other :: other != name ==> Lookup(r, other) == Lookup(containers, other)
  {
    if c.Some? then containers[name := c.value] else containers - {name}
  }

  // ---- A whole run, as a function of what it meets ---------------------------------------------

  /** The daemon, how many containers are on the rollback list, whether the next one raised inside its recreate, and
      how the forward phase went. */
  datatype Went = Went(docker: Docker, done: nat, interrupted: bool, phase: Phase)

  /** One container forward. */
  function Advanced(d: Docker, start: Docker, m: Member): Went {
    var captured := Captured(start, m);
    var image := if m.verified.Some? then m.verified.value else "";
    var tagged := if captured.Some? && m.tagPrevious.took
                  then d.(previous := d.previous[m.repo := captured.value]) else d;
    if captured.Some? && m.tagPrevious.report.Exception? then Went(tagged, 0, false, Threw)
    else
      var moved := if m.retag.took then tagged.(latest := tagged.latest[m.repo := image]) else tagged;
      if m.retag.report.Exception? then Went(moved, 0, false, Threw)
      else if m.retag.report.Failure? then Went(moved, 0, false, Stopped)
      else
        var left := Left(Lookup(moved.containers, m.name), image, m.forward);
        var now := moved.(containers := Put(moved.containers, m.name, left));
        match Reported(m.forward)
        case Exception => Went(now, 0, true, Threw)
        case Failure => Went(now, 1, false, Stopped)
        case Success => Went(now, 1, false, Done)
  }

  /** The first k containers, to the first that does not go well. */
  function Forwarded(start: Docker, stack: seq<Member>, k: nat): Went
    requires k <= |stack|
  {
    if k == 0 then Went(start, 0, false, Done)
    else
      var w := Forwarded(start, stack, k - 1);
      if !w.phase.Done? then w
      else
        var a := Advanced(w.docker, start, stack[k - 1]);
        a.(done := w.done + a.done)
  }

  datatype Undone = Undone(docker: Docker, raised: bool, allOk: bool)

  /** One container back. */
  function UndoneOne(d: Docker, start: Docker, m: Member, again: bool): Undone {
    var captured := Captured(start, m);
    var undo := if again then m.undoAgain else m.undo;
    var tag := if again then m.restoreTagAgain else m.restoreTag;
    if captured.None? then Undone(d, false, false)
    else
      var back := d.(containers := Put(d.containers, m.name, Left(Lookup(d.containers, m.name), captured.value, undo)));
      if Reported(undo).Exception? then Undone(back, true, false)
      else
        var named := if tag.took then back.(latest := back.latest[m.repo := captured.value]) else back;
        Undone(named, tag.report.Exception?, Reported(undo).Success?)
  }

  /** The first k in reverse, to the first that raises. */
  function UndoneAll(d: Docker, start: Docker, stack: seq<Member>, k: nat, again: bool): Undone
    requires k <= |stack|
    decreases k
  {
    if k == 0 then Undone(d, false, true)
    else
      var one := UndoneOne(d, start, stack[k - 1], again);
      if one.raised then one
      else
        var rest := UndoneAll(one.docker, start, stack, k - 1, again);
        if rest.raised then rest else rest.(allOk := one.allOk && rest.allOk)
  }

  /** _rollback: what it answers, None when it raises. */
  ghost function Answer(plan: Plan, u: Undone, again: bool): Option<bool> {
    if u.raised then None
    else Some(u.allOk && GrefferName(plan.stack) != ""
              && GateReady(u.docker, if again then plan.undoPollsAgain else plan.undoPolls, plan.greffer, map[], false,
                           Names(plan.stack), plan.base))
  }

  /** The gate after a forward phase that went well. */
  ghost predicate PassesGate(plan: Plan, docker: Docker) {
    !plan.lookupRaises
    && GateReady(docker, plan.polls, plan.greffer, Expected(plan.stack), true, Names(plan.stack), plan.base)
  }

  /** And what follows it. */
  ghost predicate Applies(plan: Plan, docker: Docker) {
    PassesGate(plan, docker) && !Backwards(plan.newVersion, plan.oldVersion) && !plan.pruneRaises
  }

  /** Whether the run comes to its rollback by an exception. */
  ghost predicate ByException(plan: Plan, w: Went) {
    if w.phase.Done? then
      || plan.lookupRaises
      || (PassesGate(plan, w.docker) && !Backwards(plan.newVersion, plan.oldVersion) && plan.pruneRaises)
    else w.phase.Threw?
  }

  function Interrupted(done: nat, interrupted: bool): Option<nat> {
    if interrupted then Some(done) else None
  }

  /** How a run ends: also how many containers were on the rollback list, and whether it took a second rollback. */
  datatype Final = Final(exit: Exit, docker: Docker, interrupted: Option<nat>, listed: nat, again: bool)

  function ExitOf(answer: Option<bool>): Exit {
    if answer.None? then Crashed
    else if answer.value then Code(EXIT_FAILED_ROLLED_BACK) else Code(EXIT_FAILED_ROLLBACK_FAILED)
  }

  /** The rollback, and a second one when the first raised and was not itself the handler's. */
  ghost function RolledBack(plan: Plan, start: Docker, w: Went): Final
    requires w.done <= |plan.stack|
  {
    var interrupted := Interrupted(w.done, w.interrupted);
    var first := UndoneAll(w.docker, start, plan.stack, w.done, false);
    var answer := Answer(plan, first, false);
    if answer.None? && !ByException(plan, w) then
      var second := UndoneAll(first.docker, start, plan.stack, w.done, true);
      Final(ExitOf(Answer(plan, second, true)), second.docker, interrupted, w.done, true)
    else Final(ExitOf(answer), first.docker, interrupted, w.done, false)
  }

  lemma {:induction false} ForwardedBounded(start: Docker, stack: seq<Member>, k: nat)
    requires k <= |stack|
    ensures Forwarded(start, stack, k).done <= k
    ensures Forwarded(start, stack, k).phase.Done? ==> Forwarded(start, stack, k).done == k
  {
    hide Advanced;
    if k > 0 {
      ForwardedBounded(start, stack, k - 1);
      AdvancedByOne(Forwarded(start, stack, k - 1).docker, start, stack[k - 1]);
    }
  }

  lemma AdvancedByOne(d: Docker, start: Docker, m: Member)
    ensures var a := Advanced(d, start, m); a.done <= 1 && (a.phase.Done? ==> a.done == 1 && !a.interrupted)
  {
    hide Left, Reported, Captured;
  }

  lemma {:induction false} ForwardedStays(start: Docker, stack: seq<Member>, k: nat, n: nat)
    requires k <= n <= |stack| && !Forwarded(start, stack, k).phase.Done?
    ensures Forwarded(start, stack, n) == Forwarded(start, stack, k)
  {
    hide Advanced;
    if k < n {
      ForwardedStays(start, stack, k, n - 1);
    }
  }

  /** The run as a whole. */
  ghost function Outcome(plan: Plan, start: Docker): Final {
    if !Cleared(plan) then Final(Code(EXIT_REFUSED), start, None, 0, false)
    else
      var w := Forwarded(start, plan.stack, |plan.stack|);
      if w.phase.Done? && Applies(plan, w.docker) then Final(Code(EXIT_OK), w.docker, None, w.done, false)
      else
        ForwardedBounded(start, plan.stack, |plan.stack|);
        RolledBack(plan, start, w)
  }

  /** Every command that can stop the forward phase for this container reports success. */
  predicate GoesWell(start: Docker, m: Member) {
    && (Captured(start, m).Some? ==> !m.tagPrevious.report.Exception?)
    && m.retag.report.Success? && Reported(m.forward).Success?
  }

  lemma {:induction false} ForwardedDoneIff(start: Docker, stack: seq<Member>, k: nat)
    requires k <= |stack|
    ensures Forwarded(start, stack, k).phase.Done? <==> forall i :: 0 <= i < k ==> GoesWell(start, stack[i])
  {
    hide Left, Reported, Captured;
    if k > 0 {
      ForwardedDoneIff(start, stack, k - 1);
    }
  }

  /** The update is reported applied exactly when everything was cleared, every command of the forward phase went
      well, the gate over the new containers says ready, the version has not gone back and nothing raised. */
  lemma AppliedIff(plan: Plan, start: Docker)
    ensures Outcome(plan, start).exit == Code(EXIT_OK) <==>
      && Cleared(plan) && (forall i :: 0 <= i < |plan.stack| ==> GoesWell(start, plan.stack[i]))
      && !plan.lookupRaises && !plan.pruneRaises && !Backwards(plan.newVersion, plan.oldVersion)
      && GateReady(Forwarded(start, plan.stack, |plan.stack|).docker, plan.polls, plan.greffer, Expected(plan.stack),
                   true, Names(plan.stack), plan.base)
  {
    hide Cleared, GateReady, GoesWell, Backwards, Expected, Forwarded, UndoneAll;
    ForwardedDoneIff(start, plan.stack, |plan.stack|);
  }

  /** A second rollback is for a first one that raised outside the exception handler: the run came to it by a command
      that failed, by a gate that was not ready or by a version gone back. */
  lemma AgainIff(plan: Plan, start: Docker)
    ensures var w := Forwarded(start, plan.stack, |plan.stack|);
      && w.done <= |plan.stack|
      && (Outcome(plan, start).again <==>
            && Cleared(plan) && UndoneAll(w.docker, start, plan.stack, w.done, false).raised
            && (|| w.phase == Stopped
                || (w.phase == Done && !plan.lookupRaises
                    && !(GateReady(w.docker, plan.polls, plan.greffer, Expected(plan.stack), true, Names(plan.stack),
                                   plan.base)
                         && !Backwards(plan.newVersion, plan.oldVersion)))))
  {
    hide UndoneAll, Forwarded, Cleared, GateReady, Backwards, Expected;
    ForwardedBounded(start, plan.stack, |plan.stack|);
  }

  lemma MemberFacts(plan: Plan, start: Docker, k: nat)
    requires Fits(plan, start) && Cleared(plan) && k < |plan.stack|
    ensures HonestMember(plan.stack[k]) && plan.stack[k].verified.Some?
    ensures forall i :: 0 <= i < |plan.stack| && i != k ==>
      plan.stack[i].name != plan.stack[k].name && plan.stack[i].repo != plan.stack[k].repo
    ensures forall i :: 0 <= i < |plan.stack| ==> plan.stack[i].verified.Some?
  {
    hide HonestMember;
  }

  // ---- What becomes of the tags ------------------------------------------------------------------

  predicate Points(tags: map<Repo, ImageId>, repo: Repo, image: ImageId) {
    repo in tags && tags[repo] == image
  }

  predicate SameTag(a: map<Repo, ImageId>, b: map<Repo, ImageId>, repo: Repo) {
    (repo in a <==> repo in b) && (repo in a ==> a[repo] == b[repo])
  }

  predicate NamesVerified(d: Docker, m: Member) {
    m.verified.Some? && Points(d.latest, m.repo, m.verified.value)
  }

  /** Neither tag of the repository has moved. */
  predicate SameTags(a: Docker, b: Docker, repo: Repo) {
    SameTag(a.latest, b.latest, repo) && SameTag(a.previous, b.previous, repo)
  }

  /** `:previous` names the outgoing image once the command took, and is as it was otherwise. */
  predicate PreviousSet(start: Docker, d: Docker, m: Member) {
    match Captured(start, m)
    case Some(image) =>
      if m.tagPrevious.took then Points(d.previous, m.repo, image) else SameTag(d.previous, start.previous, m.repo)
    case None => SameTag(d.previous, start.previous, m.repo)
  }

  /** `:latest` names the verified image once the command took, and is as it was otherwise; an exception from naming
      the outgoing image comes before it. */
  predicate LatestSet(start: Docker, d: Docker, m: Member) {
    if m.retag.took && !(Captured(start, m).Some? && m.tagPrevious.report.Exception?) then NamesVerified(d, m)
    else SameTag(d.latest, start.latest, m.repo)
  }

  predicate DistinctRepos(stack: seq<Member>) {
    forall i, j :: 0 <= i < j < |stack| ==> stack[i].repo != stack[j].repo
  }

  /** What one forward step does to the tags. */
  lemma AdvancedTags(d: Docker, start: Docker, m: Member)
    requires m.verified.Some? && SameTags(d, start, m.repo)
    ensures var a := Advanced(d, start, m).docker;
      && PreviousSet(start, a, m) && LatestSet(start, a, m)
      && forall repo :: repo != m.repo ==> SameTags(a, d, repo)
  {
    hide Left, Reported, Captured, Lookup, Put, SameTag, PreviousSet, LatestSet, SameTags, Advanced;
    var a := Advanced(d, start, m).docker;
    StepMaps(d, start, m);
    SetBy(d, start, a, m);
    forall repo | repo != m.repo ensures SameTags(a, d, repo) {
      OtherTags(d, a, m, repo);
    }
  }

  /** The two tag tables after a step, each as it was or with this repository set. */
  lemma StepMaps(d: Docker, start: Docker, m: Member)
    requires m.verified.Some?
    ensures var a, captured := Advanced(d, start, m).docker, Captured(start, m);
      && a.previous == (if captured.Some? && m.tagPrevious.took then d.previous[m.repo := captured.value]
                        else d.previous)
      && a.latest == (if m.retag.took && !(captured.Some? && m.tagPrevious.report.Exception?)
                      then d.latest[m.repo := m.verified.value] else d.latest)
  {
    hide Left, Reported, Captured, Lookup, Put;
  }

  lemma SetBy(d: Docker, start: Docker, a: Docker, m: Member)
    requires m.verified.Some? && SameTags(d, start, m.repo)
    requires var captured := Captured(start, m);
      && a.previous == (if captured.Some? && m.tagPrevious.took then d.previous[m.repo := captured.value]
                        else d.previous)
      && a.latest == (if m.retag.took && !(captured.Some? && m.tagPrevious.report.Exception?)
                      then d.latest[m.repo := m.verified.value] else d.latest)
    ensures PreviousSet(start, a, m) && LatestSet(start, a, m)
  {
    hide Captured;
  }

  lemma OtherTags(d: Docker, a: Docker, m: Member, repo: Repo)
    requires repo != m.repo
    requires a.previous - {m.repo} == d.previous - {m.repo} && a.latest - {m.repo} == d.latest - {m.repo}
    ensures SameTags(a, d, repo)
  {
    TagElsewhere(a.previous, d.previous, m.repo, repo);
    TagElsewhere(a.latest, d.latest, m.repo, repo);
  }

  lemma TagElsewhere(a: map<Repo, ImageId>, b: map<Repo, ImageId>, changed: Repo, repo: Repo)
    requires repo != changed && a - {changed} == b - {changed}
    ensures SameTag(a, b, repo)
  {
    assert repo in a <==> repo in a - {changed};
    assert repo in b <==> repo in b - {changed};
    if repo in a {
      assert (a - {changed})[repo] == a[repo];
    }
  }

  /** The forward phase came to this container: all before it were recreated. */
  predicate Came(stack: seq<Member>, listed: nat, i: nat)
    requires i < |stack|
  {
    i < listed || (i == listed && (i == 0 || Reported(stack[i - 1].forward).Success?))
  }

  /** A container's tags after the forward phase. */
  predicate TagsAfter(start: Docker, d: Docker, m: Member, came: bool) {
    if came then PreviousSet(start, d, m) && LatestSet(start, d, m) else SameTags(d, start, m.repo)
  }

  predicate TagsForward(start: Docker, d: Docker, stack: seq<Member>, listed: nat) {
    forall i :: 0 <= i < |stack| ==> TagsAfter(start, d, stack[i], Came(stack, listed, i))
  }

  /** One of the two ways a step can count. */
  lemma StepCounts(d: Docker, start: Docker, m: Member)
    ensures var a := Advanced(d, start, m);
      && (a.done == 1 ==> a.phase.Done? || !Reported(m.forward).Success?)
      && (a.phase.Done? ==> a.done == 1 && Reported(m.forward).Success?)
      && (a.done == 0 || a.done == 1)
  {
    hide Left, Captured, Lookup, Put;
  }

  /** The containers reached have both tags set, as far as the commands took; the others have theirs as they were. */
  lemma {:induction false} ForwardTags(start: Docker, stack: seq<Member>, k: nat)
    requires k <= |stack| && DistinctRepos(stack) && forall i :: 0 <= i < |stack| ==> stack[i].verified.Some?
    ensures var w := Forwarded(start, stack, k);
      && w.done <= k
      && (w.phase.Done? ==> w.done == k && forall i :: 0 <= i < |stack| ==> TagsAfter(start, w.docker, stack[i], i < k))
      && (w.phase.Done? && k > 0 ==> Reported(stack[k - 1].forward).Success?)
      && (!w.phase.Done? ==> TagsForward(start, w.docker, stack, w.done))
  {
    hide Advanced, PreviousSet, LatestSet, Reported;
    if k == 0 {
      assert forall i :: 0 <= i < |stack| ==> SameTags(start, start, stack[i].repo);
    } else {
      ForwardTags(start, stack, k - 1);
      var w := Forwarded(start, stack, k - 1);
      if w.phase.Done? {
        var m := stack[k - 1];
        assert TagsAfter(start, w.docker, m, false);
        AdvancedTags(w.docker, start, m);
        StepCounts(w.docker, start, m);
        var a := Advanced(w.docker, start, m).docker;
        forall i | 0 <= i < |stack| ensures TagsAfter(start, a, stack[i], i < k) {
          if i != k - 1 {
            assert stack[i].repo != m.repo;
            SetIsKept(start, w.docker, a, stack[i]);
          }
        }
      }
    }
  }

  lemma SetIsKept(start: Docker, d: Docker, a: Docker, m: Member)
    requires SameTags(a, d, m.repo)
    ensures PreviousSet(start, d, m) ==> PreviousSet(start, a, m)
    ensures LatestSet(start, d, m) ==> LatestSet(start, a, m)
  {
    hide Captured;
  }

  /** The container goes well as far as its recreate returning, whatever that reports. */
  predicate Returns(start: Docker, m: Member) {
    && (Captured(start, m).Some? ==> !m.tagPrevious.report.Exception?)
    && m.retag.report.Success? && !Reported(m.forward).Exception?
  }

  predicate GetsListed(start: Docker, stack: seq<Member>, i: nat)
    requires i < |stack|
  {
    Returns(start, stack[i]) && forall j :: 0 <= j < i ==> GoesWell(start, stack[j])
  }

  /** What is on the rollback list: the containers before which all went well and whose own recreate returned. */
  lemma {:induction false} ListedIff(start: Docker, stack: seq<Member>, k: nat, i: nat)
    requires i < k <= |stack|
    ensures i < Forwarded(start, stack, k).done <==> GetsListed(start, stack, i)
  {
    hide Left, Captured, Reported;
    ForwardedBounded(start, stack, k - 1);
    ForwardedDoneIff(start, stack, k - 1);
    if i < k - 1 {
      ListedIff(start, stack, k - 1, i);
    } else {
      StepCounts(Forwarded(start, stack, k - 1).docker, start, stack[k - 1]);
    }
  }

  function TagCommand(m: Member, again: bool): Cmd {
    if again then m.restoreTagAgain else m.restoreTag
  }

  /** `:latest` is back on the outgoing image. */
  predicate LatestBack(start: Docker, d: Docker, m: Member) {
    Captured(start, m).Some? && Points(d.latest, m.repo, Captured(start, m).value)
  }

  /** What one undo does to the tags. */
  lemma UndoneTags(d: Docker, start: Docker, m: Member, again: bool)
    ensures var u := UndoneOne(d, start, m, again);
      && u.docker.previous == d.previous
      && (forall repo :: repo != m.repo ==> SameTag(u.docker.latest, d.latest, repo))
      && (SameTag(u.docker.latest, d.latest, m.repo) || LatestBack(start, u.docker, m))
      && (!u.raised && Captured(start, m).Some? && TagCommand(m, again).took ==> LatestBack(start, u.docker, m))
      && (!TagCommand(m, again).took ==> SameTag(u.docker.latest, d.latest, m.repo))
  {
    hide Left, Reported, Captured, Lookup, Put;
  }

  /** What a rollback does to `:latest` of one container, and that it leaves `:previous` alone. */
  lemma {:induction false} RollbackTags(d: Docker, start: Docker, stack: seq<Member>, k: nat, again: bool, i: nat)
    requires k <= |stack| && i < |stack| && DistinctRepos(stack)
    ensures var u, m := UndoneAll(d, start, stack, k, again), stack[i];
      && u.docker.previous == d.previous
      && (SameTag(u.docker.latest, d.latest, m.repo) || (i < k && LatestBack(start, u.docker, m)))
      && (!u.raised && i < k && Captured(start, m).Some? && TagCommand(m, again).took ==>
            LatestBack(start, u.docker, m))
      && (!TagCommand(m, again).took ==> SameTag(u.docker.latest, d.latest, m.repo))
    decreases k
  {
    hide UndoneOne, Captured, TagCommand;
    if k > 0 {
      UndoneTags(d, start, stack[k - 1], again);
      var one := UndoneOne(d, start, stack[k - 1], again);
      RollbackTags(one.docker, start, stack, k - 1, again, i);
      assert i != k - 1 ==> SameTag(one.docker.latest, d.latest, stack[i].repo);
    }
  }

  /** One container's tags once a run has rolled back. On the list, `:latest` names the outgoing image if the command
      that points it there took, and the verified one if no such command did; `:previous` names the outgoing image if
      that command took. Off the list, a container reached keeps what its commands did, and one not reached keeps
      its tags. */
  predicate TagBack(start: Docker, d: Docker, stack: seq<Member>, listed: nat, again: bool, i: nat)
    requires i < |stack|
  {
    var m := stack[i];
    if i >= listed then TagsAfter(start, d, m, Came(stack, listed, i))
    else
      && PreviousSet(start, d, m)
      && if Captured(start, m).None? then NamesVerified(d, m)
         else if TagCommand(m, again).took then LatestBack(start, d, m)
         else NamesVerified(d, m) || (again && m.restoreTag.took && LatestBack(start, d, m))
  }

  predicate TagsBack(plan: Plan, start: Docker, d: Docker, listed: nat, again: bool) {
    forall i :: 0 <= i < |plan.stack| ==> TagBack(start, d, plan.stack, listed, again, i)
  }

  lemma ForwardedTags(plan: Plan, start: Docker)
    requires Fits(plan, start) && Cleared(plan)
    ensures var w := Forwarded(start, plan.stack, |plan.stack|);
      && TagsForward(start, w.docker, plan.stack, w.done)
      && forall i :: 0 <= i < w.done <= |plan.stack| ==> NamesVerified(w.docker, plan.stack[i])
  {
    hide *;
    var n := |plan.stack|;
    var w := Forwarded(start, plan.stack, n);
    CanTag(plan, start);
    ForwardTags(start, plan.stack, n);
    CameAll(start, plan.stack, w);
    forall i | 0 <= i < w.done && w.done <= n ensures NamesVerified(w.docker, plan.stack[i]) {
      ListedIff(start, plan.stack, n, i);
      OnTheList(plan, start, w.docker, w.done, i);
    }
  }

  lemma CanTag(plan: Plan, start: Docker)
    requires Fits(plan, start) && Cleared(plan)
    ensures DistinctRepos(plan.stack) && forall i :: 0 <= i < |plan.stack| ==> plan.stack[i].verified.Some?
  {
    hide HonestMember;
  }

  lemma CameAll(start: Docker, stack: seq<Member>, w: Went)
    requires w.phase.Done? ==> w.done == |stack|
    requires w.phase.Done? ==> forall i :: 0 <= i < |stack| ==> TagsAfter(start, w.docker, stack[i], i < |stack|)
    requires !w.phase.Done? ==> TagsForward(start, w.docker, stack, w.done)
    ensures TagsForward(start, w.docker, stack, w.done)
  {
    hide TagsAfter;
  }

  lemma OnTheList(plan: Plan, start: Docker, d: Docker, listed: nat, i: nat)
    requires Fits(plan, start) && i < |plan.stack| && i < listed
    requires TagsForward(start, d, plan.stack, listed) && GetsListed(start, plan.stack, i)
    ensures PreviousSet(start, d, plan.stack[i]) && NamesVerified(d, plan.stack[i])
  {
    hide PreviousSet, Captured, Reported, NamesVerified;
    assert TagsAfter(start, d, plan.stack[i], Came(plan.stack, listed, i));
  }

  /** A rollback that gets to its end, over the tags the forward phase left or over those an earlier attempt did. */
  lemma TagIsBack(plan: Plan, start: Docker, i: nat)
    requires Fits(plan, start) && Cleared(plan) && i < |plan.stack|
    ensures var w := Forwarded(start, plan.stack, |plan.stack|);
      && w.done <= |plan.stack|
      && var first := UndoneAll(w.docker, start, plan.stack, w.done, false);
      var second := UndoneAll(first.docker, start, plan.stack, w.done, true);
      && (!first.raised ==> TagBack(start, first.docker, plan.stack, w.done, false, i))
      && (!second.raised ==> TagBack(start, second.docker, plan.stack, w.done, true, i))
  {
    hide Forwarded, UndoneAll, Captured, Fits, Cleared, Came, TagsAfter, PreviousSet, NamesVerified, LatestBack,
      TagBack, DistinctRepos;
    var w := Forwarded(start, plan.stack, |plan.stack|);
    ForwardedBounded(start, plan.stack, |plan.stack|);
    CanTag(plan, start);
    RollbackTags(w.docker, start, plan.stack, w.done, false, i);
    var first := UndoneAll(w.docker, start, plan.stack, w.done, false);
    RollbackTags(first.docker, start, plan.stack, w.done, true, i);
    var second := UndoneAll(first.docker, start, plan.stack, w.done, true);
    ListedTags(plan, start, w, i);
    if !first.raised {
      BackAfter(start, w.docker, w.docker, first.docker, plan.stack, w.done, false, i);
    }
    if !second.raised {
      BackAfter(start, w.docker, first.docker, second.docker, plan.stack, w.done, true, i);
    }
  }

  lemma BackAfter(start: Docker, d: Docker, first: Docker, u: Docker, stack: seq<Member>, listed: nat, again: bool,
                  i: nat)
    requires i < |stack| && TagsAfter(start, d, stack[i], Came(stack, listed, i))
    requires i < listed ==> PreviousSet(start, d, stack[i]) && NamesVerified(d, stack[i])
    requires u.previous == first.previous == d.previous && (!again ==> first == d)
    requires var m := stack[i];
      && (SameTag(first.latest, d.latest, m.repo) || (i < listed && LatestBack(start, first, m)))
      && (again && !m.restoreTag.took ==> SameTag(first.latest, d.latest, m.repo))
      && (SameTag(u.latest, first.latest, m.repo) || (i < listed && LatestBack(start, u, m)))
      && (i < listed && Captured(start, m).Some? && TagCommand(m, again).took ==> LatestBack(start, u, m))
      && (!TagCommand(m, again).took ==> SameTag(u.latest, first.latest, m.repo))
    ensures TagBack(start, u, stack, listed, again, i)
  {
    hide Captured, Came, TagCommand;
    if i >= listed {
      SetIsKept(start, d, u, stack[i]);
    }
  }

  lemma ListedTags(plan: Plan, start: Docker, w: Went, i: nat)
    requires Fits(plan, start) && Cleared(plan) && w == Forwarded(start, plan.stack, |plan.stack|)
    requires i < |plan.stack| && w.done <= |plan.stack|
    ensures TagsAfter(start, w.docker, plan.stack[i], Came(plan.stack, w.done, i))
    ensures i < w.done ==> PreviousSet(start, w.docker, plan.stack[i]) && NamesVerified(w.docker, plan.stack[i])
  {
    hide Forwarded, TagsAfter, Fits, Cleared, NamesVerified, PreviousSet, GetsListed;
    ForwardedTags(plan, start);
    if i < w.done {
      ListedIff(start, plan.stack, |plan.stack|, i);
      OnTheList(plan, start, w.docker, w.done, i);
    }
  }

  /** Every run that comes to its rollback and is not left by an exception: what each tag names. */
  lemma TagsComeBack(plan: Plan, start: Docker)
    requires Fits(plan, start)
    ensures var final := Outcome(plan, start);
      final.exit == Code(1) || final.exit == Code(2) ==> TagsBack(plan, start, final.docker, final.listed, final.again)
  {
    hide Fits, Forwarded, UndoneAll, TagBack, GateReady, Applies, ByException, Cleared;
    if Cleared(plan) {
      forall i | 0 <= i < |plan.stack|
        ensures var final := Outcome(plan, start);
          final.exit == Code(1) || final.exit == Code(2) ==>
            TagBack(start, final.docker, plan.stack, final.listed, final.again, i)
      {
        TagIsBack(plan, start, i);
      }
    }
  }

  class Updater {
    const plan: Plan
    const start: Docker
    var docker: Docker
    var done: nat               // how many of the stack are on the rollback list
    var interrupted: bool       // the one after them raised inside its recreate

    constructor (plan: Plan, d: Docker)
      requires Fits(plan, d) && Cleared(plan)
      ensures Valid()
      ensures this.plan == plan && start == d && docker == d && done == 0 && !interrupted
    {
      this.plan, start, docker, done, interrupted := plan, d, d, 0, false;
    }

    ghost predicate Valid()
      reads this
    {
      Fits(plan, start) && Cleared(plan) && done <= |plan.stack| && (interrupted ==> done < |plan.stack|)
    }

    /** The one that raised is as its recreate left it, under the new tag. */
    ghost predicate Abandoned()
      requires Valid() && interrupted
      reads this
    {
      var m := plan.stack[done];
      && Reported(m.forward).Exception?
      && Lookup(docker.containers, m.name) == Left(Lookup(start.containers, m.name), m.verified.value, m.forward)
      && m.repo in docker.latest && docker.latest[m.repo] == m.verified.value
    }

    /** The rest of what is off the rollback list was not reached: its containers are as they were. */
    ghost predicate RestKept()
      requires Valid()
      reads this
    {
      && (interrupted ==> Abandoned())
      && (forall i :: done <= i < |plan.stack| && !(interrupted && i == done) ==>
            Lookup(docker.containers, plan.stack[i].name) == Lookup(start.containers, plan.stack[i].name))
    }

    /** Recreated from the verified images, which the tags now name. */
    ghost predicate AllNew()
      requires Valid()
      reads this
    {
      forall i :: 0 <= i < done ==>
        && Lookup(docker.containers, plan.stack[i].name) == Some(Container(plan.stack[i].verified.value, true))
        && plan.stack[i].repo in docker.latest && docker.latest[plan.stack[i].repo] == plan.stack[i].verified.value
    }

    /** On their captured images again, from the k-th on. */
    ghost predicate AllOld(k: int)
      requires Valid()
      reads this
    {
      forall i :: 0 <= i && k <= i < done ==>
        && Captured(start, plan.stack[i]).Some?
        && Lookup(docker.containers, plan.stack[i].name) == Some(Container(Captured(start, plan.stack[i]).value, true))
    }

    /** One container: name the outgoing image, move the tag, recreate. */
    method Advance() returns (phase: Phase)
      requires Valid() && done < |plan.stack| && !interrupted && RestKept()
      requires AllNew()
      modifies this
      ensures Valid() && RestKept() && old(done) <= done <= old(done) + 1
      ensures phase.Done? ==> !interrupted && done == old(done) + 1 && AllNew()
      ensures interrupted ==> phase.Threw?
      ensures var a := Advanced(old(docker), start, plan.stack[old(done)]);
        docker == a.docker && done == old(done) + a.done && interrupted == a.interrupted && phase == a.phase
    {
      hide Captured, Backwards, Reported, Left, Fits, Cleared, HonestRecreate;
      MemberFacts(plan, start, done);
      var m := plan.stack[done];
      var old_ := Captured(start, m);
      if old_.Some? {
        if m.tagPrevious.took {
          docker := docker.(previous := docker.previous[m.repo := old_.value]);
        }
        if m.tagPrevious.report.Exception? {
          return Threw;
        }
      }
      if m.retag.took {
        docker := docker.(latest := docker.latest[m.repo := m.verified.value]);
      }
      if m.retag.report.Exception? {
        return Threw;
      }
      if m.retag.report.Failure? {
        return Stopped;
      }
      RecreateLeaves(Lookup(docker.containers, m.name), docker.latest[m.repo], m.forward);
      var left, report := DoRecreate(Lookup(docker.containers, m.name), docker.latest[m.repo], m.forward);
      docker := docker.(containers := Put(docker.containers, m.name, left));
      if report.Exception? {
        interrupted := true;
        return Threw;
      }
      done := done + 1;
      return if report.Success? then Done else Stopped;
    }

    /** Phase 2b. */
    method Forward() returns (phase: Phase)
      requires Valid() && done == 0 && !interrupted && docker == start
      modifies this
      ensures Valid() && RestKept()
      ensures phase.Done? ==> !interrupted && done == |plan.stack| && AllNew()
      ensures interrupted ==> phase.Threw?
      ensures Went(docker, done, interrupted, phase) == Forwarded(start, plan.stack, |plan.stack|)
    {
      hide Left, Reported, Advanced, Captured, Fits, Cleared, Lookup;
      while done < |plan.stack|
        invariant Valid() && RestKept() && !interrupted && AllNew()
        invariant Forwarded(start, plan.stack, done) == Went(docker, done, false, Done)
        decreases |plan.stack| - done
      {
        ghost var k := done;
        phase := Advance();
        assert Forwarded(start, plan.stack, k + 1) == Went(docker, done, interrupted, phase);
        if !phase.Done? {
          ForwardedStays(start, plan.stack, k + 1, |plan.stack|);
          return phase;
        }
      }
      return Done;
    }

    /** _rollback, in reverse. */
    method Rollback(again: bool) returns (r: Option<bool>)
      requires Valid() && RestKept()
      modifies this`docker
      ensures Valid() && RestKept()
      ensures r == Some(true) ==> AllOld(0)
      ensures var polls := if again then plan.undoPollsAgain else plan.undoPolls;
        r == Some(true) ==> GateSaw(docker, polls, plan.greffer, map[], false, Names(plan.stack))
      ensures var u := UndoneAll(old(docker), start, plan.stack, done, again);
        docker == u.docker && r == Answer(plan, u, again)
    {
      hide Left, Reported, GateSaw, GateReady, UndoneOne, Fits, Cleared;
      var allOk := true;
      var k := done;
      while k > 0
        invariant 0 <= k <= done && Valid() && RestKept()
        invariant allOk ==> AllOld(k)
        invariant var rest := UndoneAll(docker, start, plan.stack, k, again);
          UndoneAll(old(docker), start, plan.stack, done, again)
            == if rest.raised then rest else rest.(allOk := allOk && rest.allOk)
      {
        k := k - 1;
        var ok := RollbackOne(k, again);
        if ok.None? {
          return None;
        }
        allOk := allOk && ok.value;
      }
      if allOk && GrefferName(plan.stack) != "" {
        var polls := if again then plan.undoPollsAgain else plan.undoPolls;
        var v := HealthGate(docker, polls, plan.greffer, map[], false, Names(plan.stack), plan.base);
        if v.Ready? {
          return Some(true);
        }
      }
      return Some(false);
    }

    method RollbackOne(k: nat, again: bool) returns (ok: Option<bool>)
      requires Valid() && RestKept() && k < done
      modifies this`docker
      ensures Valid() && RestKept()
      ensures ok == Some(true) && old(AllOld(k + 1)) ==> AllOld(k)
      ensures docker.previous == old(docker).previous
      ensures ok.Some? && TagCommand(plan.stack[k], again).took && Captured(start, plan.stack[k]).Some? ==>
        LatestBack(start, docker, plan.stack[k])
      ensures var one := UndoneOne(old(docker), start, plan.stack[k], again);
        docker == one.docker && ok == if one.raised then None else Some(one.allOk)
    {
      hide Left, Captured, Cleared, Reported, Fits, HonestRecreate;
      MemberFacts(plan, start, k);
      var m := plan.stack[k];
      var old_ := Captured(start, m);
      if old_.None? {
        return Some(false);
      }
      var undo := if again then m.undoAgain else m.undo;
      var tag := if again then m.restoreTagAgain else m.restoreTag;
      RecreateLeaves(Lookup(docker.containers, m.name), old_.value, undo);
      var left, report := DoRecreate(Lookup(docker.containers, m.name), old_.value, undo);
      docker := docker.(containers := Put(docker.containers, m.name, left));
      if report.Exception? {
        return None;
      }
      if tag.took {
        docker := docker.(latest := docker.latest[m.repo := old_.value]);
      }
      if tag.report.Exception? {
        return None;
      }
      return Some(report.Success?);
    }
  }

  /** Phases 1 and 2a: nothing is changed by looking. */
  method Clear(plan: Plan) returns (ok: bool)
    ensures ok <==> Cleared(plan)
    ensures !ok <==>
      || (forall i :: 0 <= i < |plan.stack| ==> plan.stack[i].service != "greffer")
      || (plan.targetTag.Some? && plan.targetTag.value != "" && Backwards(plan.targetTag, plan.oldVersion))
      || (exists i :: 0 <= i < |plan.stack| && (plan.stack[i].verified.None? || !plan.stack[i].inspected))
  {
    hide Backwards;
    var greffer := false;
    for i := 0 to |plan.stack|
      invariant greffer <==> exists j :: 0 <= j < i && plan.stack[j].service == GREFFER_SERVICE
    {
      greffer := greffer || plan.stack[i].service == GREFFER_SERVICE;
    }
    if !greffer {
      return false;
    }
    if plan.targetTag.Some? && plan.targetTag.value != "" && Backwards(plan.targetTag, plan.oldVersion) {
      return false;
    }
    for i := 0 to |plan.stack|
      invariant forall j :: 0 <= j < i ==> plan.stack[j].verified.Some?
    {
      if plan.stack[i].verified.None? {
        return false;
      }
    }
    for i := 0 to |plan.stack|
      invariant forall j :: 0 <= j < i ==> plan.stack[j].inspected
    {
      if !plan.stack[i].inspected {
        return false;
      }
    }
    return true;
  }

  /** Every container runs its verified image, and its tag names it. */
  ghost predicate Updated(plan: Plan, docker: Docker) {
    forall i :: 0 <= i < |plan.stack| ==>
      var m := plan.stack[i];
      && m.verified.Some? && Lookup(docker.containers, m.name) == Some(Container(m.verified.value, true))
      && m.repo in docker.latest && docker.latest[m.repo] == m.verified.value
  }

  /** The containers on the rollback list run their captured images and the others were not touched, but for the one
      whose recreate raised: that one is as the recreate left it, under a tag that still names the new image. */
  ghost predicate BackButFor(plan: Plan, start: Docker, docker: Docker, listed: nat, interrupted: Option<nat>) {
    forall i :: 0 <= i < |plan.stack| ==>
      var m := plan.stack[i];
      if interrupted == Some(i) then
        && m.verified.Some? && Reported(m.forward).Exception?
        && Lookup(docker.containers, m.name) == Left(Lookup(start.containers, m.name), m.verified.value, m.forward)
        && m.repo in docker.latest && docker.latest[m.repo] == m.verified.value
      else if i < listed then
        && Captured(start, m).Some?
        && Lookup(docker.containers, m.name) == Some(Container(Captured(start, m).value, true))
      else Lookup(docker.containers, m.name) == Lookup(start.containers, m.name)
  }

  lemma NewIsUpdated(u: Updater)
    requires u.Valid() && u.AllNew() && u.done == |u.plan.stack|
    ensures Updated(u.plan, u.docker)
  {
    hide Lookup, Fits;
  }

  lemma OldIsBack(u: Updater)
    requires u.Valid() && u.RestKept() && u.AllOld(0)
    ensures BackButFor(u.plan, u.start, u.docker, u.done, Interrupted(u.done, u.interrupted))
  {
    hide Lookup, Fits, Captured, Left, Reported;
  }

  lemma PreviousIsNamed(plan: Plan, start: Docker)
    requires Fits(plan, start) && Cleared(plan)
    ensures var w := Forwarded(start, plan.stack, |plan.stack|);
      w.phase.Done? ==> forall i :: 0 <= i < |plan.stack| ==> PreviousSet(start, w.docker, plan.stack[i])
  {
    hide PreviousSet, LatestSet, Forwarded, Fits, Cleared, SameTags;
    CanTag(plan, start);
    ForwardTags(start, plan.stack, |plan.stack|);
  }

  /** On the rollback list are the containers whose recreate returned, after all went well before them. */
  predicate IsListed(plan: Plan, start: Docker, listed: nat) {
    forall i :: 0 <= i < |plan.stack| ==> (i < listed <==> GetsListed(start, plan.stack, i))
  }

  lemma ListedAll(plan: Plan, start: Docker)
    ensures IsListed(plan, start, Forwarded(start, plan.stack, |plan.stack|).done)
  {
    hide GetsListed, Forwarded;
    var stack, listed := plan.stack, Forwarded(start, plan.stack, |plan.stack|).done;
    forall i | 0 <= i < |stack| ensures i < listed <==> GetsListed(start, stack, i) {
      ListedIff(start, stack, |stack|, i);
    }
  }

  lemma RaisedInside(u: Updater)
    requires u.Valid() && u.RestKept() && u.interrupted
    ensures u.done < |u.plan.stack| && Reported(u.plan.stack[u.done].forward).Exception?
  {
    hide Lookup, Fits, Captured, Left, Reported;
  }

  /** run_remote_update. `listed` is the length of the rollback list, `again` whether a second rollback ran. */
  method RunRemoteUpdate(plan: Plan, d: Docker)
    returns (exit: Exit, docker: Docker, interrupted: Option<nat>, listed: nat, again: bool)
    requires Fits(plan, d)
    ensures exit == Code(3) <==> !Cleared(plan)
    ensures !Cleared(plan) ==> docker == d
    ensures exit == Code(0) ==>
      Updated(plan, docker) && GateSaw(docker, plan.polls, plan.greffer, Expected(plan.stack), true, Names(plan.stack))
    ensures exit == Code(0) ==> forall i :: 0 <= i < |plan.stack| ==> PreviousSet(d, docker, plan.stack[i])
    ensures exit == Code(1) ==>
      && BackButFor(plan, d, docker, listed, interrupted)
      && GateSaw(docker, if again then plan.undoPollsAgain else plan.undoPolls, plan.greffer, map[], false,
                 Names(plan.stack))
    ensures exit == Code(1) || exit == Code(2) ==> TagsBack(plan, d, docker, listed, again)
    ensures listed <= |plan.stack|
    ensures exit != Code(3) ==> IsListed(plan, d, listed)
    ensures interrupted.Some? ==>
      interrupted.value == listed < |plan.stack| && Reported(plan.stack[listed].forward).Exception? && !again
    ensures exit == Code(0) ==> !Backwards(plan.newVersion, plan.oldVersion)
    ensures Final(exit, docker, interrupted, listed, again) == Outcome(plan, d)
  {
    hide GateSaw, GateReady, Reported, Left, Captured, Backwards, Lookup, HonestMember, Forwarded, UndoneAll, Cleared,
      Fits, Updated, BackButFor, Updater.Valid, Updater.RestKept, Updater.AllNew, Updater.AllOld, PassesGate, Answer,
      TagsBack, PreviousSet, IsListed;
    var ok := Clear(plan);
    if !ok {
      return Code(EXIT_REFUSED), d, None, 0, false;
    }
    TagsComeBack(plan, d);
    ListedAll(plan, d);
    ForwardedBounded(d, plan.stack, |plan.stack|);
    var updater := new Updater(plan, d);
    var phase := updater.Forward();
    if phase.Done? {
      var after := AfterForward(updater);
      if after.Done? {
        NewIsUpdated(updater);
        PreviousIsNamed(plan, d);
        return Code(EXIT_OK), updater.docker, None, updater.done, false;
      }
      phase := after;
    }
    interrupted := Interrupted(updater.done, updater.interrupted);
    if updater.interrupted {
      RaisedInside(updater);
    }
    listed := updater.done;
    exit, again := RollBack(updater, phase);
    if exit == Code(EXIT_FAILED_ROLLED_BACK) {
      OldIsBack(updater);
    }
    docker := updater.docker;
  }

  /** The gate and what follows it, while nothing is undone yet. */
  method AfterForward(updater: Updater) returns (phase: Phase)
    ensures phase.Done? <==> Applies(updater.plan, updater.docker)
    ensures var plan := updater.plan;
      phase.Threw? <==>
        || plan.lookupRaises
        || (PassesGate(plan, updater.docker) && !Backwards(plan.newVersion, plan.oldVersion) && plan.pruneRaises)
    ensures var plan := updater.plan;
      phase.Done? ==> GateSaw(updater.docker, plan.polls, plan.greffer, Expected(plan.stack), true, Names(plan.stack))
  {
    hide GateSaw, GateReady, Expected, Backwards, Names;
    var plan := updater.plan;
    if plan.lookupRaises {
      return Threw;
    }
    var expected, names := Expected(plan.stack), Names(plan.stack);
    var v := HealthGate(updater.docker, plan.polls, plan.greffer, expected, true, names, plan.base);
    if !v.Ready? || Backwards(plan.newVersion, plan.oldVersion) {
      return Stopped;
    }
    return if plan.pruneRaises then Threw else Done;
  }

  /** The rollback; one that raises is tried once more, unless it is already the exception handler's. */
  method RollBack(updater: Updater, phase: Phase) returns (exit: Exit, again: bool)
    requires updater.Valid() && updater.RestKept() && !phase.Done?
    modifies updater`docker
    ensures updater.Valid() && updater.RestKept()
    ensures exit == Code(EXIT_FAILED_ROLLED_BACK) ==> updater.AllOld(0)
    ensures var plan, docker := updater.plan, updater.docker;
      exit == Code(EXIT_FAILED_ROLLED_BACK) ==>
        GateSaw(docker, if again then plan.undoPollsAgain else plan.undoPolls, plan.greffer, map[], false,
                Names(plan.stack))
    ensures again ==> phase.Stopped?
    ensures var first := UndoneAll(old(updater.docker), updater.start, updater.plan.stack, updater.done, false);
      var answer := Answer(updater.plan, first, false);
      if answer.None? && phase.Stopped? then
        var second := UndoneAll(first.docker, updater.start, updater.plan.stack, updater.done, true);
        again && updater.docker == second.docker && exit == ExitOf(Answer(updater.plan, second, true))
      else !again && updater.docker == first.docker && exit == ExitOf(answer)
  {
    hide GateSaw, GateReady, Answer, UndoneAll, Names;
    again := false;
    var back := updater.Rollback(false);
    if back.None? && phase.Stopped? {
      again := true;
      back := updater.Rollback(true);
    }
    exit := ExitOf(back);
  }

  // ---- What "rolled back" means ----------------------------------------------------------------

  /** A raised recreate that never got to remove the container. */
  predicate LeftInPlace(r: Recreate) {
    !r.builds || (r.named && (r.stop.report.Exception? || (r.remove.report.Exception? && !r.remove.took)))
  }

  /** Whatever is left of the container after its recreate raised has the image it had. */
  predicate StillOld(start: Docker, m: Member) {
    LeftInPlace(m.forward) || (m.name in start.containers && m.verified == Some(start.containers[m.name].image))
  }

  /** After a reported rollback every container runs the image it ran before, unless a recreate raised: then
      exactly when that recreate had not removed its container, or the new image is the old one. A raise after that is
      missed, because the container goes on the rollback list only when its recreate returns. (Where docker does not
      show a container's image, the rollback goes to the image its tag named.) */
  lemma RolledBackIff(plan: Plan, start: Docker, docker: Docker, polls: seq<Poll>, listed: nat,
                      interrupted: Option<nat>)
    requires Fits(plan, start) && BackButFor(plan, start, docker, listed, interrupted)
    requires GateSaw(docker, polls, plan.greffer, map[], false, Names(plan.stack))
    requires interrupted.Some? ==> interrupted.value < |plan.stack|
    requires forall i :: 0 <= i < |plan.stack| ==> plan.stack[i].shown
    ensures (forall i :: 0 <= i < |plan.stack| ==>
               plan.stack[i].name in docker.containers
               && docker.containers[plan.stack[i].name].image == start.containers[plan.stack[i].name].image)
      <==> (interrupted.Some? ==> StillOld(start, plan.stack[interrupted.value]))
  {
    var k :| 0 <= k < |polls| && SeenReady(docker, polls[k], plan.greffer, map[], false, Names(plan.stack));
    forall i | 0 <= i < |plan.stack|
      ensures plan.stack[i].name in docker.containers
      ensures docker.containers[plan.stack[i].name].image == start.containers[plan.stack[i].name].image
        <==> (interrupted == Some(i) ==> StillOld(start, plan.stack[i]))
    {
      assert Names(plan.stack)[i] in Names(plan.stack);
      assert Seen(docker, polls[k], plan.stack[i].name);
      var m := plan.stack[i];
      if interrupted == Some(i) {
        if m.verified.value != start.containers[m.name].image {
          RaisedLeaves(start.containers[m.name], m.verified.value, m.forward);
        } else {
          RecreateLeaves(Some(start.containers[m.name]), m.verified.value, m.forward);
        }
      }
    }
  }

  lemma RaisedLeaves(was: Container, image: ImageId, r: Recreate)
    requires HonestRecreate(r) && Reported(r).Exception? && was.image != image
    ensures var left := Left(Some(was), image, r);
      left.Some? ==> (left.value.image == was.image <==> LeftInPlace(r))
  {
  }

  // ---- A run that says it is rolled back and is not ---------------------------------------------

  /** `docker start` did its work, and reading its output raised: subprocess.run decodes it as text, and only a missing
      binary and a timeout are turned into a failed command. */
  function StartRaises(): Recreate {
    var fine := Cmd(true, Success);
    Recreate(true, true, fine, fine, fine, Cmd(true, Exception))
  }

  /** The greffer alone, on image `old`, to be updated to `image`. */
  function Alone(name: Name, repo: Repo, image: ImageId): Member {
    var fine := Cmd(true, Success);
    Member(GREFFER_SERVICE, repo, name, Some(image), true, true, fine, fine, StartRaises(), true,
           StartRaises(), fine, StartRaises(), fine)
  }

  function AlonePlan(name: Name, repo: Repo, image: ImageId): Plan {
    var healthy := Poll(Readyz(true, None, "ready", []), {name}, {name}, 0);
    Plan([Alone(name, repo, image)], None, None, None, None, false, false, 0, [healthy], [healthy], [])
  }

  function AloneOn(name: Name, repo: Repo, old_: ImageId): Docker {
    Docker(map[repo := old_], map[], map[name := Container(old_, true)])
  }

  /** For every name, repository and pair of images: the run ends as rolled back, with the container on the new
      image. It is not on the rollback list, and the gate after the rollback finds it healthy. */
  lemma RolledBackOnTheNewImage(name: Name, repo: Repo, old_: ImageId, image: ImageId)
    requires name != ""
    ensures var plan, d := AlonePlan(name, repo, image), AloneOn(name, repo, old_);
      var final := Outcome(plan, d);
      && Fits(plan, d) && final.exit == Code(EXIT_FAILED_ROLLED_BACK) && final.interrupted == Some(0)
      && Lookup(final.docker.containers, name) == Some(Container(image, true))
  {
    hide Undecided, Decide;
    var plan, d := AlonePlan(name, repo, image), AloneOn(name, repo, old_);
    var m := plan.stack[0];
    assert m.service == GREFFER_SERVICE;
    var w := Forwarded(d, plan.stack, 1);
    assert Forwarded(d, plan.stack, 0) == Went(d, 0, false, Done);
    assert w == Advanced(d, d, m);
    assert w.phase.Threw? && w.done == 0 && w.interrupted;
    assert Lookup(w.docker.containers, name) == Some(Container(image, true));
    HealthyIsReady(w.docker, name, plan.undoPolls);
    assert Names(plan.stack) == [name];
  }

  lemma HealthyIsReady(d: Docker, name: Name, polls: seq<Poll>)
    requires polls == [Poll(Readyz(true, None, "ready", []), {name}, {name}, 0)] && name in d.containers
    ensures GateReady(d, polls, None, map[], false, [name], 0)
  {
    assert Decide(d, polls[0], None, map[], false, [name], 0) == Some(Ready);
    assert Undecided(d, polls[..0], None, map[], false, [name], 0);
  }
}
