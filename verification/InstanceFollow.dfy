/**
 Following all containers of an instance over polls: what the shared positions give
 out of what the containers write. Every poll finds the same containers and can read
 them; the first one has no cursor.

 Two containers of one service are there while docker-compose recreates one: the
 outgoing container, renamed, keeps its labels until the new one is up. They also
 stay behind a recreate that failed half-way.
 */
module InstanceFollow {
  import opened Values
  import opened ContainerLog

  /** One poll: every container's log at the time, and the tail asked for. */
  datatype Round = Round(logs: seq<seq<Line>>, tail: nat)

  predicate Extends(log: seq<Line>, before: seq<Line>) {
    before <= log
  }

  predicate AllExtend(n: nat, logs: seq<seq<Line>>, before: seq<seq<Line>>) {
    |logs| == n && |before| == n && forall i :: 0 <= i < n ==> Extends(logs[i], before[i])
  }

  predicate Readable(services: seq<Service>, round: Round) {
    |round.logs| == |services| && round.tail > 0 && forall i :: 0 <= i < |services| ==> IsLog(round.logs[i])
  }

  /** The rounds of one set of containers whose logs are only appended to. */
  predicate Polls(services: seq<Service>, rounds: seq<Round>) {
    rounds == [] ||
    (var front, last := rounds[..|rounds| - 1], rounds[|rounds| - 1];
     Polls(services, front) && Readable(services, last)
     && (front != [] ==> AllExtend(|services|, last.logs, front[|front| - 1].logs)))
  }

  function Containers(services: seq<Service>, round: Round): (cs: seq<Container>)
    requires |round.logs| == |services|
    ensures |cs| == |services|
    ensures forall i :: 0 <= i < |services| ==> cs[i] == Container(services[i], Some(round.logs[i]))
  {
    seq(|services|, i requires 0 <= i < |services| => Container(services[i], Some(round.logs[i])))
  }

  /** The cursor after the rounds, as InstanceLogs returns it. */
  ghost function Positions(services: seq<Service>, rounds: seq<Round>): map<Service, Stamp>
    requires Polls(services, rounds)
  {
    if rounds == [] then map[]
    else
      var front, last := rounds[..|rounds| - 1], rounds[|rounds| - 1];
      PollsOf(services, rounds);
      NewPositions(Containers(services, last), Positions(services, front), last.tail)
  }

  /** The read of container i in the last round. */
  ghost function LastRead(services: seq<Service>, rounds: seq<Round>, i: nat): Read
    requires Polls(services, rounds) && rounds != [] && i < |services|
  {
    var last := rounds[|rounds| - 1];
    PollsOf(services, rounds);
    ReadOf(Containers(services, last)[i], Positions(services, rounds[..|rounds| - 1]), last.tail)
  }

  /** What the rounds gave out of container i. */
  ghost function Given(services: seq<Service>, rounds: seq<Round>, i: nat): seq<Line>
    requires Polls(services, rounds) && i < |services|
  {
    if rounds == [] then []
    else
      PollsOf(services, rounds);
      Given(services, rounds[..|rounds| - 1], i) + LastRead(services, rounds, i).lines
  }

  /** What a follower is to see of it: the tail at first, and then every line written since. */
  ghost function Owed(services: seq<Service>, rounds: seq<Round>, i: nat): seq<Line>
    requires Polls(services, rounds) && i < |services|
  {
    if rounds == [] then []
    else
      PollsOf(services, rounds);
      Owed(services, rounds[..|rounds| - 1], i) + Written(services, rounds, i)
  }

  /** What the last round finds written since the one before it. */
  ghost function Written(services: seq<Service>, rounds: seq<Round>, i: nat): seq<Line>
    requires Polls(services, rounds) && rounds != [] && i < |services|
  {
    var last := rounds[|rounds| - 1];
    if |rounds| == 1 then Last(last.logs[i], last.tail)
    else last.logs[i][|rounds[|rounds| - 2].logs[i]|..]
  }

  ghost predicate Unflagged(services: seq<Service>, rounds: seq<Round>)
    requires Polls(services, rounds)
  {
    rounds == [] ||
    (PollsOf(services, rounds);
     Unflagged(services, rounds[..|rounds| - 1])
     && forall i :: 0 <= i < |services| ==> !LastRead(services, rounds, i).truncated)
  }

  /** After every round each container's lines have come out once, in order, and none is missing. */
  ghost predicate Exact(services: seq<Service>, rounds: seq<Round>)
    requires Polls(services, rounds)
  {
    rounds == [] ||
    (PollsOf(services, rounds);
     Exact(services, rounds[..|rounds| - 1])
     && forall i :: 0 <= i < |services| ==> Given(services, rounds, i) == Owed(services, rounds, i))
  }

  lemma PollsOf(services: seq<Service>, rounds: seq<Round>)
    requires Polls(services, rounds) && rounds != []
    ensures Polls(services, rounds[..|rounds| - 1]) && Readable(services, rounds[|rounds| - 1])
    ensures |rounds| > 1 ==>
      Readable(services, rounds[|rounds| - 2])
      && AllExtend(|services|, rounds[|rounds| - 1].logs, rounds[|rounds| - 2].logs)
  {
    if |rounds| > 1 {
      var front := rounds[..|rounds| - 1];
      assert front[|front| - 1] == rounds[|rounds| - 2];
    }
  }

  // ---- When the positions fit ------------------------------------------------------------------

  /** The position a service's containers share stands between what one of them had written at the last poll and
      what it has written since; without a position yet, all of it goes into one tail. */
  predicate Fits(before: seq<Line>, log: seq<Line>, position: Option<Stamp>, tail: nat)
    requires before <= log
  {
    if position.None? then |log| <= tail
    else AllOld(before, position.value) && AllNew(log[|before|..], position.value)
  }

  function At(positions: map<Service, Stamp>, service: Service): Option<Stamp> {
    if service in positions then Some(positions[service]) else None
  }

  ghost predicate LastFits(services: seq<Service>, rounds: seq<Round>, i: nat)
    requires Polls(services, rounds) && |rounds| > 1 && i < |services|
  {
    PollsOf(services, rounds);
    Fits(rounds[|rounds| - 2].logs[i], rounds[|rounds| - 1].logs[i],
         At(Positions(services, rounds[..|rounds| - 1]), services[i]), rounds[|rounds| - 1].tail)
  }

  ghost predicate AllFit(services: seq<Service>, rounds: seq<Round>)
    requires Polls(services, rounds)
  {
    |rounds| <= 1 ||
    (PollsOf(services, rounds);
     AllFit(services, rounds[..|rounds| - 1]) && forall i :: 0 <= i < |services| ==> LastFits(services, rounds, i))
  }

  /** An increasing log gives exactly its end to a cursor exactly when the cursor stands before that end. */
  lemma NewIsEndIff(before: seq<Line>, log: seq<Line>, cursor: Stamp)
    requires IsLog(log) && before <= log
    ensures New(log, cursor) == log[|before|..] <==> AllOld(before, cursor) && AllNew(log[|before|..], cursor)
  {
    hide New, AllOld, AllNew, IsLog;
    assert log == before + log[|before|..];
    if AllOld(before, cursor) && AllNew(log[|before|..], cursor) {
      NewOf(before, log[|before|..], cursor);
    }
    var seen := Halve(log, cursor);
    if New(log, cursor) == log[|before|..] {
      assert |seen| == |before|;
      assert seen == log[..|before|] == before;
    }
  }

  /** A service has no position only while none of its containers has written. */
  lemma {:induction false} NoPositionMeansSilent(containers: seq<Container>, positions: map<Service, Stamp>,
                                                 tail: nat, i: nat)
    requires i < |containers| && containers[i].log.Some? && tail > 0
    requires At(NewPositions(containers, positions, tail), containers[i].service).None?
    ensures At(positions, containers[i].service).None? && containers[i].log.value == []
    decreases |containers|
  {
    hide New, Last;
    var front, c := containers[..|containers| - 1], containers[|containers| - 1];
    if i < |front| {
      assert front[i] == containers[i];
      NoPositionMeansSilent(front, positions, tail, i);
    } else {
      assert Last(c.log.value, tail) == [] ==> c.log.value == [];
    }
  }

  /** One unflagged round gives what was written since the one before exactly when the position fits. */
  lemma StepIsExactIff(services: seq<Service>, rounds: seq<Round>, i: nat)
    requires Polls(services, rounds) && |rounds| > 1 && i < |services| && !LastRead(services, rounds, i).truncated
    ensures LastRead(services, rounds, i).lines == Written(services, rounds, i) <==> LastFits(services, rounds, i)
  {
    hide New, AllOld, AllNew, IsLog, NewPositions, Last;
    PollsOf(services, rounds);
    var front := rounds[..|rounds| - 1];
    PollsOf(services, front);
    var before, log := rounds[|rounds| - 2].logs[i], rounds[|rounds| - 1].logs[i];
    var tail := rounds[|rounds| - 1].tail;
    assert front[|front| - 1] == rounds[|rounds| - 2];
    var position := At(Positions(services, front), services[i]);
    if position.None? {
      NoPositionMeansSilent(Containers(services, front[|front| - 1]), Positions(services, front[..|front| - 1]),
                            front[|front| - 1].tail, i);
      assert before == [] && log[|before|..] == log;
      LastWhole(log, tail);
    } else {
      LastWhole(New(log, position.value), tail);
      NewIsEndIff(before, log, position.value);
    }
  }

  lemma LastWhole(s: seq<Line>, n: nat)
    ensures Last(s, n) == s <==> |s| <= n
  {
  }

  /** Following an instance: polls that were never flagged give each container's lines out once, in order and
      without a gap, exactly when at every poll after the first the position its service had by then stood between
      what that container had written at the poll before and what it has written since. A sibling that is ahead
      takes the position past lines not given out yet, one that lags leaves it before lines already given out. */
  lemma {:induction false} FollowIsExactIff(services: seq<Service>, rounds: seq<Round>)
    requires Polls(services, rounds) && Unflagged(services, rounds)
    ensures Exact(services, rounds) <==> AllFit(services, rounds)
  {
    hide Polls, LastRead, Written, LastFits, Fits, Positions;
    if rounds != [] {
      var front := rounds[..|rounds| - 1];
      PollsOf(services, rounds);
      FollowIsExactIff(services, front);
      if |rounds| == 1 {
        assert front == [];
        forall i | 0 <= i < |services| ensures Given(services, rounds, i) == Owed(services, rounds, i) {
          FirstRead(services, rounds, i);
        }
      } else if Exact(services, front) {
        forall i | 0 <= i < |services|
          ensures Given(services, rounds, i) == Owed(services, rounds, i) <==> LastFits(services, rounds, i)
        {
          FrontIsExact(services, front, i);
          StepIsExactIff(services, rounds, i);
          SameEnd(Given(services, front, i), LastRead(services, rounds, i).lines, Written(services, rounds, i));
        }
      }
    }
  }

  lemma SameEnd(a: seq<Line>, b: seq<Line>, c: seq<Line>)
    ensures a + b == a + c <==> b == c
  {
    if a + b == a + c {
      assert b == (a + b)[|a|..] && c == (a + c)[|a|..];
    }
  }

  lemma FrontIsExact(services: seq<Service>, rounds: seq<Round>, i: nat)
    requires Polls(services, rounds) && Exact(services, rounds) && i < |services|
    ensures Given(services, rounds, i) == Owed(services, rounds, i)
  {
    hide LastRead, Written, Polls;
    if rounds != [] {
      PollsOf(services, rounds);
    }
  }

  lemma FirstRead(services: seq<Service>, rounds: seq<Round>, i: nat)
    requires Polls(services, rounds) && |rounds| == 1 && i < |services|
    ensures Given(services, rounds, i) == Owed(services, rounds, i)
  {
    hide New, Last, NewPositions;
    PollsOf(services, rounds);
    assert rounds[..0] == [];
    assert Given(services, [], i) == [] && Owed(services, [], i) == [];
    assert Positions(services, []) == map[];
  }

  /** In closed form: the tail of the first poll, and all that was written after it. */
  lemma {:induction false} OwedIs(services: seq<Service>, rounds: seq<Round>, i: nat)
    requires Polls(services, rounds) && rounds != [] && i < |services|
    ensures |rounds[0].logs| == |services| == |rounds[|rounds| - 1].logs|
    ensures var first, last := rounds[0], rounds[|rounds| - 1];
      first.logs[i] <= last.logs[i]
      && Owed(services, rounds, i) == Last(first.logs[i], first.tail) + last.logs[i][|first.logs[i]|..]
    decreases |rounds|
  {
    hide Last, IsLog;
    PollsOf(services, rounds);
    var front := rounds[..|rounds| - 1];
    if |rounds| == 1 {
      assert Owed(services, front, i) == [];
      var log := rounds[0].logs[i];
      assert log[|log|..] == [];
    } else {
      OwedIs(services, front, i);
      assert front[0] == rounds[0] && front[|front| - 1] == rounds[|rounds| - 2];
      var a, b, c := rounds[0].logs[i], rounds[|rounds| - 2].logs[i], rounds[|rounds| - 1].logs[i];
      assert Extends(c, b);
      JoinEnds(Last(a, rounds[0].tail), a, b, c);
    }
  }

  lemma JoinEnds(head: seq<Line>, a: seq<Line>, b: seq<Line>, c: seq<Line>)
    requires a <= b <= c
    ensures (head + b[|a|..]) + c[|b|..] == head + c[|a|..]
  {
    assert c == b + c[|b|..];
    assert c[|a|..] == b[|a|..] + c[|b|..];
  }

  // ---- One container a service -----------------------------------------------------------------

  predicate Distinct(services: seq<Service>) {
    forall i, j :: 0 <= i < j < |services| ==> services[i] != services[j]
  }

  function LastStamp(log: seq<Line>): Option<Stamp> {
    if log == [] then None else Some(log[|log| - 1].ts)
  }

  lemma {:induction false} NoNextNoPosition(containers: seq<Container>, positions: map<Service, Stamp>, tail: nat,
                                            service: Service)
    requires forall j :: 0 <= j < |containers| && containers[j].service == service ==>
      ReadOf(containers[j], positions, tail).next.None?
    ensures service !in NewPositions(containers, positions, tail)
    decreases |containers|
  {
    hide ReadOf;
    if containers != [] {
      var front := containers[..|containers| - 1];
      assert forall j :: 0 <= j < |front| ==> front[j] == containers[j];
      NoNextNoPosition(front, positions, tail, service);
    }
  }

  /** A read from where the container itself had got to ends where it has got to now. */
  lemma ReadFromOwn(service: Service, before: seq<Line>, log: seq<Line>, positions: map<Service, Stamp>, tail: nat)
    requires IsLog(log) && before <= log && tail > 0 && At(positions, service) == LastStamp(before)
    ensures ReadOf(Container(service, Some(log)), positions, tail).next == LastStamp(log)
    ensures before != [] ==> Fits(before, log, LastStamp(before), tail)
  {
    hide New, IsLog, AllOld, AllNew;
    if before == [] {
      LastEnds(log, tail);
    } else {
      var more := log[|before|..];
      var cursor := before[|before| - 1].ts;
      assert log == before + more;
      AfterLast(before, more, cursor);
      NewOf(before, more, cursor);
      LastEnds(more, tail);
      if more == [] {
        assert log == before;
      }
    }
  }

  lemma LastEnds(s: seq<Line>, n: nat)
    requires n > 0
    ensures Last(s, n) == [] <==> s == []
    ensures s != [] ==> Last(s, n)[|Last(s, n)| - 1] == s[|s| - 1]
  {
  }

  /** Where services differ, each position is where its one container had got to. */
  lemma {:induction false} OwnPosition(services: seq<Service>, rounds: seq<Round>, i: nat)
    requires Polls(services, rounds) && rounds != [] && Distinct(services) && i < |services|
    ensures |rounds[|rounds| - 1].logs| == |services|
    ensures At(Positions(services, rounds), services[i]) == LastStamp(rounds[|rounds| - 1].logs[i])
    ensures |rounds| > 1 ==>
      (|rounds[|rounds| - 2].logs| == |services|
       && (LastFits(services, rounds, i) <==>
             SmallStart(rounds[|rounds| - 2].logs[i], rounds[|rounds| - 1].logs[i], rounds[|rounds| - 1].tail)))
    decreases |rounds|
  {
    hide IsLog, ReadOf, NewPositions, Fits;
    PollsOf(services, rounds);
    var front, last := rounds[..|rounds| - 1], rounds[|rounds| - 1];
    var containers, positions := Containers(services, last), Positions(services, front);
    var before: seq<Line> := [];
    if |rounds| > 1 {
      OwnPosition(services, front, i);
      assert front[|front| - 1] == rounds[|rounds| - 2];
      before := rounds[|rounds| - 2].logs[i];
      assert Extends(last.logs[i], before);
      FitsWithoutPosition(before, last.logs[i], last.tail);
    } else {
      assert positions == map[];
    }
    ReadFromOwn(services[i], before, last.logs[i], positions, last.tail);
    assert containers[i] == Container(services[i], Some(last.logs[i]));
    if last.logs[i] == [] {
      NoNextNoPosition(containers, positions, last.tail, services[i]);
    } else {
      LastContainerSetsThePosition(containers, positions, last.tail, i);
    }
  }

  lemma FitsWithoutPosition(before: seq<Line>, log: seq<Line>, tail: nat)
    requires before <= log
    ensures Fits(before, log, None, tail) <==> |log| <= tail
  {
  }

  predicate SmallStart(before: seq<Line>, log: seq<Line>, tail: nat) {
    before == [] ==> |log| <= tail
  }

  /** A container that was silent at a poll writes no more than one tail before the next. */
  ghost predicate StartsSmall(services: seq<Service>, rounds: seq<Round>)
    requires Polls(services, rounds)
  {
    |rounds| <= 1 ||
    (PollsOf(services, rounds);
     var before, last := rounds[|rounds| - 2], rounds[|rounds| - 1];
     StartsSmall(services, rounds[..|rounds| - 1])
     && forall i :: 0 <= i < |services| ==> SmallStart(before.logs[i], last.logs[i], last.tail))
  }

  lemma {:induction false} DistinctFitIff(services: seq<Service>, rounds: seq<Round>)
    requires Polls(services, rounds) && Distinct(services)
    ensures AllFit(services, rounds) <==> StartsSmall(services, rounds)
    decreases |rounds|
  {
    hide Polls, LastFits, Positions, Distinct, SmallStart, AllFit, StartsSmall;
    if |rounds| > 1 {
      PollsOf(services, rounds);
      DistinctFitIff(services, rounds[..|rounds| - 1]);
      var before, last := rounds[|rounds| - 2], rounds[|rounds| - 1];
      forall i | 0 <= i < |services|
        ensures LastFits(services, rounds, i) <==>
          SmallStart(before.logs[i], last.logs[i], last.tail)
      {
        OwnPosition(services, rounds, i);
      }
      AllFitUnfolds(services, rounds);
    } else {
      NothingToFit(services, rounds);
    }
  }

  lemma NothingToFit(services: seq<Service>, rounds: seq<Round>)
    requires Polls(services, rounds) && |rounds| <= 1
    ensures AllFit(services, rounds) && StartsSmall(services, rounds)
  {
  }

  lemma AllFitUnfolds(services: seq<Service>, rounds: seq<Round>)
    requires Polls(services, rounds) && |rounds| > 1
    ensures Polls(services, rounds[..|rounds| - 1])
    ensures AllFit(services, rounds) <==>
      AllFit(services, rounds[..|rounds| - 1]) && forall i :: 0 <= i < |services| ==> LastFits(services, rounds, i)
    ensures |rounds[|rounds| - 2].logs| == |services| == |rounds[|rounds| - 1].logs|
    ensures var before, last := rounds[|rounds| - 2], rounds[|rounds| - 1];
      StartsSmall(services, rounds) <==>
        (StartsSmall(services, rounds[..|rounds| - 1])
         && forall i :: 0 <= i < |services| ==> SmallStart(before.logs[i], last.logs[i], last.tail))
  {
    hide Polls, LastFits, SmallStart;
    PollsOf(services, rounds);
  }

  /** With one container a service, polls that were never flagged are exact but for one gap: a container that was
      still silent has no position, and if it writes more than a tail before the next poll the rest is cut without
      a flag. */
  lemma DistinctServicesFollowIff(services: seq<Service>, rounds: seq<Round>)
    requires Polls(services, rounds) && Unflagged(services, rounds) && Distinct(services)
    ensures Exact(services, rounds) <==> StartsSmall(services, rounds)
  {
    hide *;
    FollowIsExactIff(services, rounds);
    DistinctFitIff(services, rounds);
  }

  // ---- Two containers of one service -----------------------------------------------------------

  lemma TwoPolls(s: Service, a: seq<Line>, b: seq<Line>, a': seq<Line>, tail: nat)
    requires IsLog(a) && IsLog(b) && IsLog(a') && a <= a' && tail > 0
    ensures var rounds := [Round([a, b], tail), Round([a', b], tail)];
      Polls([s, s], rounds) && rounds[..1] == [rounds[0]] && Polls([s, s], rounds[..1])
  {
    hide IsLog;
    var rounds := [Round([a, b], tail), Round([a', b], tail)];
    var first := rounds[..1];
    assert first == [rounds[0]] && first[..0] == [];
    assert Polls([s, s], first[..0]);
    assert Extends(a', a) && Extends(b, b);
  }

  /** After a first poll of two siblings that have both written, they share the second one's last stamp. */
  lemma SharedPosition(s: Service, a: seq<Line>, b: seq<Line>, tail: nat)
    requires b != [] && tail > 0
    ensures var p := NewPositions([Container(s, Some(a)), Container(s, Some(b))], map[], tail);
      At(p, s) == Some(b[|b| - 1].ts)
  {
    hide Last;
    LastEnds(b, tail);
    LastContainerSetsThePosition([Container(s, Some(a)), Container(s, Some(b))], map[], tail, 1);
  }

  /** The position after the first poll, and what the second reads of either sibling. */
  lemma SecondRead(s: Service, a: seq<Line>, b: seq<Line>, a': seq<Line>, tail: nat, i: nat)
    requires IsLog(a) && IsLog(b) && IsLog(a') && a <= a' && b != [] && tail > 0 && i < 2
    ensures var services, rounds := [s, s], [Round([a, b], tail), Round([a', b], tail)];
      Polls(services, rounds)
      && LastRead(services, rounds, i) == Meant(if i == 0 then a' else b, Some(b[|b| - 1].ts), tail)
  {
    hide IsLog, Last, Meant, NewPositions;
    TwoPolls(s, a, b, a', tail);
    SharedPosition(s, a, b, tail);
    var services, rounds := [s, s], [Round([a, b], tail), Round([a', b], tail)];
    PollsOf(services, rounds);
    PollsOf(services, rounds[..1]);
    assert rounds[..1][..0] == [];
    assert Containers(services, rounds[0]) == [Container(s, Some(a)), Container(s, Some(b))];
    assert Positions(services, rounds[..1])
      == NewPositions(Containers(services, rounds[0]), Positions(services, []), tail);
    assert Positions(services, []) == map[];
  }

  /** A sibling that is ahead loses lines: whatever the first container writes between two polls at or before the
      stamp the second one had reached is not given out, and nothing is flagged. */
  lemma SiblingAheadLoses(s: Service, a: seq<Line>, b: seq<Line>, a': seq<Line>, tail: nat)
    requires IsLog(a) && IsLog(b) && IsLog(a') && a < a' && b != [] && tail > 0
    requires !Before(b[|b| - 1].ts, a'[|a'| - 1].ts)
    ensures var services, rounds := [s, s], [Round([a, b], tail), Round([a', b], tail)];
      Polls(services, rounds)
      && LastRead(services, rounds, 0) == Read([], Some(b[|b| - 1].ts), false)
      && !LastRead(services, rounds, 1).truncated
      && Owed(services, rounds, 0) == Last(a, tail) + a'[|a|..] != Given(services, rounds, 0)
  {
    hide IsLog, LastRead, Written, Polls;
    var services, rounds := [s, s], [Round([a, b], tail), Round([a', b], tail)];
    SecondRead(s, a, b, a', tail, 0);
    SecondRead(s, a, b, a', tail, 1);
    var cursor := b[|b| - 1].ts;
    EndIsOld(a', cursor);
    EndIsOld(b, cursor);
    NewOf(a', [], cursor);
    NewOf(b, [], cursor);
    assert a' + [] == a' && b + [] == b;
    OwedIs(services, rounds, 0);
    TwoPolls(s, a, b, a', tail);
    FirstRead(services, rounds[..1], 0);
    OwedIs(services, rounds[..1], 0);
    PollsOf(services, rounds);
    assert a[|a|..] == [];
    assert Given(services, rounds, 0) == Last(a, tail) + [] + [];
  }

  lemma EndIsOld(log: seq<Line>, cursor: Stamp)
    requires IsLog(log) && (log != [] ==> !Before(cursor, log[|log| - 1].ts))
    ensures AllOld(log, cursor)
  {
  }

  /** A sibling that lags repeats lines: what the first container has already given out after the stamp the second
      one had reached comes out again, at a poll that finds nothing written. */
  lemma SiblingBehindRepeats(s: Service, a: seq<Line>, b: seq<Line>, tail: nat)
    requires IsLog(a) && IsLog(b) && a != [] && b != [] && tail > 0
    requires Before(b[|b| - 1].ts, a[|a| - 1].ts)
    ensures var services, rounds := [s, s], [Round([a, b], tail), Round([a, b], tail)];
      Polls(services, rounds)
      && LastRead(services, rounds, 0).lines == Last(New(a, b[|b| - 1].ts), tail) != []
      && Owed(services, rounds, 0) == Last(a, tail) != Given(services, rounds, 0)
  {
    hide IsLog, LastRead, Written, Polls, New, AllOld, AllNew;
    var services, rounds := [s, s], [Round([a, b], tail), Round([a, b], tail)];
    SecondRead(s, a, b, a, tail, 0);
    var cursor := b[|b| - 1].ts;
    var seen := Halve(a, cursor);
    assert New(a, cursor) == [] ==> seen + New(a, cursor) == seen;
    LastIsOldToo(a, cursor);
    LastEnds(New(a, cursor), tail);
    OwedIs(services, rounds, 0);
    TwoPolls(s, a, b, a, tail);
    FirstRead(services, rounds[..1], 0);
    OwedIs(services, rounds[..1], 0);
    PollsOf(services, rounds);
    assert a[|a|..] == [];
    assert Last(a, tail) + [] == Last(a, tail);
  }

  lemma LastIsOldToo(log: seq<Line>, cursor: Stamp)
    requires log != []
    ensures AllOld(log, cursor) ==> !Before(cursor, log[|log| - 1].ts)
  {
  }
}
