/**
 Following container output by timestamp: the daemon is asked for a bounded read
 from a whole second on, and the lines at or before the cursor are dropped.
 */
module ContainerLog {
  import opened Values

  /** A log timestamp; `since` resolves only its second. */
  datatype Stamp = Stamp(sec: nat, nanos: nat)

  predicate Before(a: Stamp, b: Stamp) {
    a.sec < b.sec || (a.sec == b.sec && a.nanos < b.nanos)
  }

  datatype Line = Line(ts: Stamp, msg: string)

  /** What the daemon keeps of one container's output: strictly increasing stamps. */
  predicate IsLog(log: seq<Line>) {
    forall i, j :: 0 <= i < j < |log| ==> Before(log[i].ts, log[j].ts)
  }

  function Last<T>(s: seq<T>, n: nat): (r: seq<T>)
    ensures |r| == if |s| > n then n else |s|
  {
    if |s| > n then s[|s| - n..] else s
  }

  /** No line after the cursor is older than the second the daemon is asked from. */
  predicate Covers(log: seq<Line>, cursor: Stamp, since: nat) {
    forall i :: 0 <= i < |log| && Before(cursor, log[i].ts) ==> log[i].ts.sec >= since
  }

  /** `docker logs --since sec --tail n` */
  function Daemon(log: seq<Line>, since: Option<nat>, n: nat): seq<Line> {
    Last(if since.None? then log else From(log, since.value), n)
  }

  function From(log: seq<Line>, sec: nat): seq<Line> {
    if log == [] then [] else (if log[0].ts.sec >= sec then [log[0]] else []) + From(log[1..], sec)
  }

  /** The lines strictly after the cursor. */
  function New(log: seq<Line>, cursor: Stamp): seq<Line> {
    if log == [] then [] else (if Before(cursor, log[0].ts) then [log[0]] else []) + New(log[1..], cursor)
  }

  // ---- A log cut at the cursor ---------------------------------------------------------------

  predicate AllOld(s: seq<Line>, cursor: Stamp) {
    forall i :: 0 <= i < |s| ==> !Before(cursor, s[i].ts)
  }

  predicate AllNew(s: seq<Line>, cursor: Stamp) {
    forall i :: 0 <= i < |s| ==> Before(cursor, s[i].ts)
  }

  lemma {:induction false} NewOf(seen: seq<Line>, unseen: seq<Line>, cursor: Stamp)
    requires AllOld(seen, cursor) && AllNew(unseen, cursor)
    ensures New(seen + unseen, cursor) == unseen
    decreases |seen| + |unseen|
  {
    var log := seen + unseen;
    if seen != [] {
      assert log[1..] == seen[1..] + unseen;
      NewOf(seen[1..], unseen, cursor);
    } else if unseen != [] {
      assert log == unseen && [] + unseen[1..] == unseen[1..];
      NewOf([], unseen[1..], cursor);
    }
  }

  lemma Rest(log: seq<Line>)
    requires IsLog(log) && log != []
    ensures IsLog(log[1..]) && log == [log[0]] + log[1..]
    ensures forall i :: 0 <= i < |log| - 1 ==> Before(log[0].ts, log[1..][i].ts)
  {
  }

  lemma AllOfIt(log: seq<Line>, cursor: Stamp)
    requires IsLog(log) && log != [] && Before(cursor, log[0].ts)
    ensures New(log, cursor) == [] + log && AllNew(log, cursor) && AllOld([], cursor)
  {
    hide New;
    NewOf([], log, cursor);
    assert [] + log == log;
  }

  /** In an increasing log the new lines come last. */
  lemma {:induction false} Halve(log: seq<Line>, cursor: Stamp) returns (seen: seq<Line>)
    requires IsLog(log)
    ensures log == seen + New(log, cursor) && AllOld(seen, cursor) && AllNew(New(log, cursor), cursor)
  {
    seen := [];
    if log != [] {
      Rest(log);
      if Before(cursor, log[0].ts) {
        AllOfIt(log, cursor);
      } else {
        var more := Halve(log[1..], cursor);
        seen := [log[0]] + more;
        assert log == seen + New(log[1..], cursor);
      }
    }
  }

  /** What is new of the log from a second on is what is new of the log, without what is older than that second. */
  lemma {:induction false} NewFrom(log: seq<Line>, cursor: Stamp, since: nat)
    ensures |New(From(log, since), cursor)| <= |New(log, cursor)|
    ensures New(From(log, since), cursor) == New(log, cursor) <==> Covers(log, cursor, since)
  {
    hide New, Before;
    if log == [] {
    } else {
      var rest := log[1..];
      NewFrom(rest, cursor, since);
      assert log == [log[0]] + rest;
      assert forall i :: 0 < i < |log| ==> log[i] == rest[i - 1];
      NewCons(log[0], rest, cursor);
      if log[0].ts.sec >= since {
        NewCons(log[0], From(rest, since), cursor);
      } else {
        assert From(log, since) == From(rest, since);
      }
      if Before(cursor, log[0].ts) {
        assert ([log[0]] + New(rest, cursor))[1..] == New(rest, cursor);
        assert ([log[0]] + New(From(rest, since), cursor))[1..] == New(From(rest, since), cursor);
      }
    }
  }

  lemma NewCons(l: Line, rest: seq<Line>, cursor: Stamp)
    ensures New([l] + rest, cursor) == if Before(cursor, l.ts) then [l] + New(rest, cursor) else New(rest, cursor)
  {
    assert ([l] + rest)[1..] == rest;
    assert [] + New(rest, cursor) == New(rest, cursor);
  }

  lemma {:induction false} FromIsLog(log: seq<Line>, since: nat)
    requires IsLog(log)
    ensures IsLog(From(log, since)) && forall l :: l in From(log, since) ==> l in log
  {
    if log != [] {
      Rest(log);
      FromIsLog(log[1..], since);
      forall l | l in From(log[1..], since) ensures Before(log[0].ts, l.ts) {
        var i :| 0 <= i < |log[1..]| && log[1..][i] == l;
      }
    }
  }

  lemma LastOf<T>(a: seq<T>, b: seq<T>, n: nat)
    ensures Last(a + b, n) == if |b| >= n then Last(b, n) else Last(a, n - |b|) + b
  {
  }

  lemma LastOfLast<T>(s: seq<T>, n: nat, m: nat)
    requires m <= n
    ensures Last(Last(s, n), m) == Last(s, m)
  {
  }

  lemma LastIsOld(s: seq<Line>, n: nat, cursor: Stamp)
    ensures AllOld(s, cursor) ==> AllOld(Last(s, n), cursor)
    ensures AllNew(s, cursor) ==> AllNew(Last(s, n), cursor)
    ensures IsLog(s) ==> IsLog(Last(s, n))
  {
  }

  // ---- One container ---------------------------------------------------------------------------

  datatype Read = Read(lines: seq<Line>, next: Option<Stamp>, truncated: bool)

  /** What a read is meant to be: the new lines, or the newest `tail` of them and a flag. */
  function Meant(log: seq<Line>, cursor: Option<Stamp>, tail: nat): Read {
    var unseen := if cursor.None? then log else New(log, cursor.value);
    var lines := Last(unseen, tail);
    Read(lines, if lines == [] then cursor else Some(lines[|lines| - 1].ts), cursor.Some? && |unseen| > tail)
  }

  /** The newest tail+1 lines of a log tell as much of what is new as all of it. */
  lemma LastSuffices(log: seq<Line>, cursor: Stamp, tail: nat)
    requires IsLog(log)
    ensures var survivors := New(Last(log, tail + 1), cursor); var unseen := New(log, cursor);
      && (|survivors| > tail <==> |unseen| > tail)
      && Last(survivors, tail) == Last(unseen, tail)
  {
    hide New, Last, AllOld, AllNew, IsLog;
    var unseen := New(log, cursor);
    var seen := Halve(log, cursor);
    LastOf(seen, unseen, tail + 1);
    if |unseen| > tail {
      LastIsOld(unseen, tail + 1, cursor);
      NothingOld(cursor);
      NewOf([], Last(unseen, tail + 1), cursor);
      assert [] + Last(unseen, tail + 1) == Last(unseen, tail + 1);
      LastOfLast(unseen, tail + 1, tail);
    } else {
      LastIsOld(seen, tail + 1 - |unseen|, cursor);
      NewOf(Last(seen, tail + 1 - |unseen|), unseen, cursor);
    }
  }

  /** The bounded read loses nothing the flag does not tell: tail+1 survivors mean new lines were cut. It has to be
      asked from the cursor's second or from an earlier one. */
  lemma BoundedReadSuffices(log: seq<Line>, cursor: Stamp, since: nat, tail: nat)
    requires IsLog(log) && since <= cursor.sec
    ensures var survivors := New(Daemon(log, Some(since), tail + 1), cursor); var unseen := New(log, cursor);
      && (|survivors| > tail <==> |unseen| > tail)
      && Last(survivors, tail) == Last(unseen, tail)
  {
    hide New, Last, IsLog, From;
    NewFrom(log, cursor, since);
    FromIsLog(log, since);
    LastSuffices(From(log, since), cursor, tail);
  }

  lemma NothingOld(cursor: Stamp)
    ensures AllOld([], cursor)
  {
  }

  /** What the daemon is asked for: all of it, or from a second on. */
  function Asked(log: seq<Line>, cursor: Option<Stamp>, since: nat): seq<Line> {
    if cursor.Some? then From(log, since) else log
  }

  /** _read_one_container; None is a read the daemon refused. `since` is what _ts_to_unix makes of the cursor: its
      second where local time is UTC, an earlier one east of it, a later one west of it. */
  method ReadOneContainer(log: Option<seq<Line>>, cursor: Option<Stamp>, since: nat, tail: nat) returns (r: Read)
    requires log.Some? ==> IsLog(log.value)
    ensures log.None? ==> r == Read([], cursor, false)
    ensures log.Some? ==> r == Meant(Asked(log.value, cursor, since), cursor, tail)
    ensures log.Some? && (cursor.Some? ==> since <= cursor.value.sec) ==> r == Meant(log.value, cursor, tail)
  {
    hide New, From, IsLog;
    if log.None? {
      return Read([], cursor, false);
    }
    var limit := if cursor.Some? then tail + 1 else tail;
    var parsed := Daemon(log.value, if cursor.Some? then Some(since) else None, limit);
    var truncated := false;
    if cursor.Some? {
      FromIsLog(log.value, since);
      LastSuffices(From(log.value, since), cursor.value, tail);
      NewFrom(log.value, cursor.value, since);
      parsed := New(parsed, cursor.value);
      if |parsed| > tail {
        parsed := parsed[|parsed| - tail..];
        truncated := true;
      } else {
        assert Last(parsed, tail) == parsed;
      }
    }
    return Read(parsed, if parsed != [] then Some(parsed[|parsed| - 1].ts) else cursor, truncated);
  }

  /** West of UTC: a poll, whatever its tail, is as if the lines before `since` were not there, so it has every new
      line to choose from exactly when none of them is older than that. */
  lemma LateSinceIff(log: seq<Line>, cursor: Stamp, since: nat)
    ensures New(Asked(log, Some(cursor), since), cursor) == New(log, cursor) <==> Covers(log, cursor, since)
    ensures since <= cursor.sec ==> Covers(log, cursor, since)
  {
    hide New, From;
    NewFrom(log, cursor, since);
  }

  // ---- Following -------------------------------------------------------------------------------

  datatype Poll = Poll(log: seq<Line>, tail: nat)

  predicate AllLogs(polls: seq<Poll>) {
    forall i :: 0 <= i < |polls| ==> IsLog(polls[i].log)
  }

  /** Everything given out by polls one after the other, the last cursor, and whether any was flagged. */
  function Follow(polls: seq<Poll>, cursor: Option<Stamp>): Read
    decreases |polls|
  {
    if polls == [] then Read([], cursor, false)
    else
      var first := Meant(polls[0].log, cursor, polls[0].tail);
      var rest := Follow(polls[1..], first.next);
      Read(first.lines + rest.lines, rest.next, first.truncated || rest.truncated)
  }

  predicate AfterCursor(lines: seq<Line>, cursor: Option<Stamp>) {
    cursor.None? || forall i :: 0 <= i < |lines| ==> Before(cursor.value, lines[i].ts)
  }

  lemma MeantIsAfter(log: seq<Line>, cursor: Option<Stamp>, tail: nat)
    requires IsLog(log)
    ensures var r := Meant(log, cursor, tail);
      && IsLog(r.lines) && AfterCursor(r.lines, cursor)
      && r.next == if r.lines == [] then cursor else Some(r.lines[|r.lines| - 1].ts)
  {
    hide New, Last, IsLog, AllOld, AllNew;
    if cursor.Some? {
      var seen := Halve(log, cursor.value);
      var unseen := New(log, cursor.value);
      EndIsLog(seen, unseen);
      LastIsOld(unseen, tail, cursor.value);
      NewIsAfter(Last(unseen, tail), cursor.value);
    } else {
      LastIsOld(log, tail, Stamp(0, 0));
    }
  }

  lemma EndIsLog(a: seq<Line>, b: seq<Line>)
    requires IsLog(a + b)
    ensures IsLog(b)
  {
    assert forall i :: 0 <= i < |b| ==> b[i] == (a + b)[|a| + i];
  }

  lemma NewIsAfter(s: seq<Line>, cursor: Stamp)
    requires AllNew(s, cursor)
    ensures AfterCursor(s, Some(cursor))
  {
  }

  /** Whatever the daemon keeps or drops between polls, no line is given out twice and none out of order. */
  lemma {:induction false} NeverEmittedTwice(polls: seq<Poll>, cursor: Option<Stamp>)
    requires AllLogs(polls)
    ensures var r := Follow(polls, cursor);
      && IsLog(r.lines) && AfterCursor(r.lines, cursor)
      && r.next == if r.lines == [] then cursor else Some(r.lines[|r.lines| - 1].ts)
    decreases |polls|
  {
    hide Meant;
    if polls != [] {
      var first := Meant(polls[0].log, cursor, polls[0].tail);
      MeantIsAfter(polls[0].log, cursor, polls[0].tail);
      assert forall i :: 0 <= i < |polls| - 1 ==> polls[1..][i] == polls[i + 1];
      NeverEmittedTwice(polls[1..], first.next);
      var rest := Follow(polls[1..], first.next);
      Ordered(first.lines, rest.lines, cursor, first.next);
    }
  }

  lemma Ordered(a: seq<Line>, b: seq<Line>, cursor: Option<Stamp>, mid: Option<Stamp>)
    requires IsLog(a) && IsLog(b) && AfterCursor(a, cursor) && AfterCursor(b, mid)
    requires if a != [] then mid == Some(a[|a| - 1].ts) else mid == cursor
    ensures IsLog(a + b) && AfterCursor(a + b, cursor)
  {
  }

  /** Polls of one growing log, each keeping the lines after the cursor it is asked for. */
  predicate Grows(polls: seq<Poll>) {
    forall i, j :: 0 <= i <= j < |polls| ==> polls[i].log <= polls[j].log
  }

  /** Growing a log appends to what is new. */
  lemma NewOfGrown(log: seq<Line>, more: seq<Line>, cursor: Stamp)
    requires IsLog(log + more) && New(log, cursor) != []
    ensures log != [] && New(log, cursor)[|New(log, cursor)| - 1] == log[|log| - 1]
    ensures New(log + more, cursor) == New(log, cursor) + New(log + more, log[|log| - 1].ts)
  {
    hide New, AllOld, AllNew;
    assert IsLog(log) by { assert forall i :: 0 <= i < |log| ==> log[i] == (log + more)[i]; }
    var seen := Halve(log, cursor);
    var unseen := New(log, cursor);
    var last := log[|log| - 1];
    assert last == unseen[|unseen| - 1];
    assert forall i :: 0 <= i < |more| ==> more[i] == (log + more)[|log| + i];
    AfterLast(log, more, cursor);
    NewOf(log, more, last.ts);
    assert (log + more) == seen + (unseen + more);
    NewOf(seen, unseen + more, cursor);
  }

  lemma AfterLast(log: seq<Line>, more: seq<Line>, cursor: Stamp)
    requires IsLog(log + more) && log != []
    ensures AllOld(log, log[|log| - 1].ts) && AllNew(more, log[|log| - 1].ts)
    ensures Before(cursor, log[|log| - 1].ts) ==> AllNew(more, cursor)
  {
    var n := |log|;
    assert forall i :: 0 <= i < n ==> (log + more)[i] == log[i];
    assert forall i :: 0 <= i < |more| ==> (log + more)[n + i] == more[i];
    forall i | 0 <= i < n ensures !Before(log[n - 1].ts, log[i].ts) {
      assert i < n - 1 ==> Before((log + more)[i].ts, (log + more)[n - 1].ts);
    }
    forall i | 0 <= i < |more| ensures Before(log[n - 1].ts, more[i].ts) {
      assert Before((log + more)[n - 1].ts, (log + more)[n + i].ts);
    }
  }

  /** Polls of a growing log that were never flagged give out exactly the lines after the first cursor. */
  lemma {:induction false} UnflaggedPollsMissNothing(polls: seq<Poll>, cursor: Stamp)
    requires polls != [] && AllLogs(polls) && Grows(polls) && !Follow(polls, Some(cursor)).truncated
    ensures Follow(polls, Some(cursor)).lines == New(polls[|polls| - 1].log, cursor)
    decreases |polls|
  {
    hide New, IsLog, Before;
    var log, last, rest := polls[0].log, polls[|polls| - 1].log, polls[1..];
    var first := Meant(log, Some(cursor), polls[0].tail);
    assert first.lines == New(log, cursor);
    if rest == [] {
      assert first.lines + [] == first.lines && rest == [];
    } else {
      assert forall i :: 0 <= i < |rest| ==> rest[i] == polls[i + 1];
      MeantIsAfter(log, Some(cursor), polls[0].tail);
      UnflaggedPollsMissNothing(rest, first.next.value);
      if first.lines != [] {
        assert last == log + last[|log|..];
        NewOfGrown(log, last[|log|..], cursor);
      } else {
        assert [] + Follow(rest, first.next).lines == Follow(rest, first.next).lines;
      }
    }
  }

  // ---- All containers of an instance -----------------------------------------------------------

  type Service = string

  datatype Container = Container(service: Service, log: Option<seq<Line>>)

  function ReadOf(c: Container, positions: map<Service, Stamp>, tail: nat): Read {
    var cursor := if c.service in positions then Some(positions[c.service]) else None;
    if c.log.None? then Read([], cursor, false) else Meant(c.log.value, cursor, tail)
  }

  /** The lines of every container, each from its service's position, before they are merged. */
  function Collected(containers: seq<Container>, positions: map<Service, Stamp>, tail: nat): seq<(Service, Line)> {
    if containers == [] then []
    else
      var c := containers[|containers| - 1];
      Collected(containers[..|containers| - 1], positions, tail) + Tagged(c.service, ReadOf(c, positions, tail).lines)
  }

  function Tagged(service: Service, lines: seq<Line>): (r: seq<(Service, Line)>)
    ensures |r| == |lines| && forall i :: 0 <= i < |lines| ==> r[i] == (service, lines[i])
  {
    seq(|lines|, i requires 0 <= i < |lines| => (service, lines[i]))
  }

  // ---- The merge by stamp ----------------------------------------------------------------------

  /** x behind everything that is not later than it. */
  function Place(sorted: seq<(Service, Line)>, x: (Service, Line)): seq<(Service, Line)> {
    if sorted == [] || !Before(x.1.ts, sorted[|sorted| - 1].1.ts) then sorted + [x]
    else Place(sorted[..|sorted| - 1], x) + [sorted[|sorted| - 1]]
  }

  /** all_lines.sort(key=...): the stable sort by stamp. */
  function Merged(lines: seq<(Service, Line)>): seq<(Service, Line)> {
    if lines == [] then [] else Place(Merged(lines[..|lines| - 1]), lines[|lines| - 1])
  }

  predicate InOrder(lines: seq<(Service, Line)>) {
    forall i, j :: 0 <= i < j < |lines| ==> !Before(lines[j].1.ts, lines[i].1.ts)
  }

  /** The lines with one stamp, in their order. */
  function AtStamp(lines: seq<(Service, Line)>, ts: Stamp): seq<(Service, Line)> {
    if lines == [] then []
    else
      var last := lines[|lines| - 1];
      AtStamp(lines[..|lines| - 1], ts) + if last.1.ts == ts then [last] else []
  }

  lemma AtStampOf(front: seq<(Service, Line)>, last: (Service, Line), ts: Stamp)
    ensures AtStamp(front + [last], ts) == AtStamp(front, ts) + if last.1.ts == ts then [last] else []
  {
    assert (front + [last])[..|front|] == front;
  }

  predicate NoneLater(lines: seq<(Service, Line)>, ts: Stamp) {
    forall i :: 0 <= i < |lines| ==> !Before(ts, lines[i].1.ts)
  }

  lemma Append(lines: seq<(Service, Line)>, x: (Service, Line))
    ensures InOrder(lines + [x]) <==> InOrder(lines) && NoneLater(lines, x.1.ts)
  {
    var all := lines + [x];
    assert forall i :: 0 <= i < |lines| ==> all[i] == lines[i];
    assert all[|lines|] == x;
  }

  lemma {:induction false} PlaceKeepsOrder(sorted: seq<(Service, Line)>, x: (Service, Line))
    requires InOrder(sorted)
    ensures InOrder(Place(sorted, x))
    ensures forall ts :: NoneLater(sorted, ts) && !Before(ts, x.1.ts) ==> NoneLater(Place(sorted, x), ts)
  {
    hide InOrder;
    if sorted == [] {
      assert sorted + [x] == [] + [x];
      Append([], x);
    } else {
      var front, last := sorted[..|sorted| - 1], sorted[|sorted| - 1];
      assert sorted == front + [last];
      Append(front, last);
      if Before(x.1.ts, last.1.ts) {
        PlaceKeepsOrder(front, x);
        Append(Place(front, x), last);
      } else {
        Append(sorted, x);
      }
    }
  }

  lemma {:induction false} PlaceKeepsLines(sorted: seq<(Service, Line)>, x: (Service, Line), ts: Stamp)
    ensures multiset(Place(sorted, x)) == multiset(sorted) + multiset{x}
    ensures AtStamp(Place(sorted, x), ts) == AtStamp(sorted + [x], ts)
  {
    hide AtStamp;
    if sorted != [] && Before(x.1.ts, sorted[|sorted| - 1].1.ts) {
      var front, last := sorted[..|sorted| - 1], sorted[|sorted| - 1];
      PlaceKeepsLines(front, x, ts);
      assert sorted == front + [last];
      AtStampOf(Place(front, x), last, ts);
      AtStampOf(front, x, ts);
      AtStampOf(front, last, ts);
      AtStampOf(sorted, x, ts);
    }
  }

  /** The merge is by stamp, gives every line out once, and keeps the order of lines with one stamp. */
  lemma {:induction false} MergeSorts(lines: seq<(Service, Line)>, ts: Stamp)
    ensures InOrder(Merged(lines)) && multiset(Merged(lines)) == multiset(lines)
    ensures AtStamp(Merged(lines), ts) == AtStamp(lines, ts)
  {
    hide Place, InOrder, AtStamp, NoneLater;
    if lines == [] {
      NothingToMerge();
    } else {
      var front, last := lines[..|lines| - 1], lines[|lines| - 1];
      MergeSorts(front, ts);
      assert lines == front + [last];
      PlaceKeepsOrder(Merged(front), last);
      PlaceKeepsLines(Merged(front), last, ts);
      AtStampOf(Merged(front), last, ts);
      AtStampOf(front, last, ts);
    }
  }

  lemma NothingToMerge()
    ensures InOrder([]) && forall ts :: AtStamp([], ts) == []
  {
  }

  /** What a poll gives out is what its containers' reads give, no line more and none less. */
  lemma {:induction false} CollectedIsRead(containers: seq<Container>, positions: map<Service, Stamp>, tail: nat,
                                           service: Service, line: Line)
    ensures (service, line) in Collected(containers, positions, tail) <==>
      exists i :: 0 <= i < |containers| && containers[i].service == service
                  && line in ReadOf(containers[i], positions, tail).lines
  {
    hide ReadOf;
    if containers != [] {
      var front, c := containers[..|containers| - 1], containers[|containers| - 1];
      CollectedIsRead(front, positions, tail, service, line);
      assert forall i :: 0 <= i < |front| ==> front[i] == containers[i];
      var lines := ReadOf(c, positions, tail).lines;
      assert (service, line) in Tagged(c.service, lines) <==> service == c.service && line in lines by {
        if service == c.service && line in lines {
          var k :| 0 <= k < |lines| && lines[k] == line;
          assert Tagged(c.service, lines)[k] == (service, line);
        }
      }
      assert containers[|front|] == c;
    }
  }

  // ---- One poll of an instance -----------------------------------------------------------------

  /** The positions of the next cursor: only of services that still have a container. */
  function NewPositions(containers: seq<Container>, positions: map<Service, Stamp>, tail: nat): map<Service, Stamp> {
    if containers == [] then map[]
    else
      var c := containers[|containers| - 1];
      var before := NewPositions(containers[..|containers| - 1], positions, tail);
      var next := ReadOf(c, positions, tail).next;
      if next.Some? then before[c.service := next.value] else before
  }

  predicate Flagged(containers: seq<Container>, positions: map<Service, Stamp>, tail: nat) {
    exists i :: 0 <= i < |containers| && ReadOf(containers[i], positions, tail).truncated
  }

  /** The loop of instance_logs. */
  method InstanceLogs(containers: seq<Container>, positions: map<Service, Stamp>, tail: nat)
    returns (lines: seq<(Service, Line)>, newPositions: map<Service, Stamp>, truncated: bool)
    requires forall i :: 0 <= i < |containers| && containers[i].log.Some? ==> IsLog(containers[i].log.value)
    ensures lines == Merged(Collected(containers, positions, tail))
    ensures newPositions == NewPositions(containers, positions, tail)
    ensures truncated <==> Flagged(containers, positions, tail)
  {
    hide Meant, IsLog, Merged;
    lines, newPositions, truncated := [], map[], false;
    for n := 0 to |containers|
      invariant lines == Collected(containers[..n], positions, tail)
      invariant newPositions == NewPositions(containers[..n], positions, tail)
      invariant truncated <==> Flagged(containers[..n], positions, tail)
    {
      var c := containers[n];
      assert containers[..n + 1] == containers[..n] + [c];
      OneMore(containers[..n], c, positions, tail);
      var position := if c.service in positions then Some(positions[c.service]) else None;
      var r := ReadOneContainer(c.log, position, if position.Some? then position.value.sec else 0, tail);
      lines := lines + Tagged(c.service, r.lines);
      truncated := truncated || r.truncated;
      if r.next.Some? {
        newPositions := newPositions[c.service := r.next.value];
      }
    }
    assert containers[..|containers|] == containers;
    lines := Merged(lines);
  }

  lemma OneMore(containers: seq<Container>, c: Container, positions: map<Service, Stamp>, tail: nat)
    ensures Flagged(containers + [c], positions, tail)
      <==> (Flagged(containers, positions, tail) || ReadOf(c, positions, tail).truncated)
  {
    hide ReadOf;
    var all := containers + [c];
    assert forall i :: 0 <= i < |containers| ==> all[i] == containers[i];
    assert all[|containers|] == c;
  }

  /** A service's next position is the one its last container reached, and stays where it was only if that one
      had nothing new. */
  lemma {:induction false} LastContainerSetsThePosition(containers: seq<Container>, positions: map<Service, Stamp>,
                                                        tail: nat, i: nat)
    requires i < |containers| && forall j :: i < j < |containers| ==> containers[j].service != containers[i].service
    requires ReadOf(containers[i], positions, tail).next.Some?
    ensures var p := NewPositions(containers, positions, tail);
      containers[i].service in p && p[containers[i].service] == ReadOf(containers[i], positions, tail).next.value
    decreases |containers|
  {
    hide ReadOf;
    if i < |containers| - 1 {
      var front := containers[..|containers| - 1];
      assert forall j :: 0 <= j < |front| ==> front[j] == containers[j];
      LastContainerSetsThePosition(front, positions, tail, i);
    }
  }
}
