/**
 The renewal schedule: the settings validator, the per-instance backoff, the
 worker's delays, and what they promise an instance that keeps failing.
 Clocks are in whole seconds; a pass takes no time and is not forced.
 */
module CertSchedule {
  import opened Values

  type Instance = string

  const CAP := 86400        // CERT_RENEWAL_BACKOFF_CAP_SECONDS
  const DAY := 86400
  const MIN_ATTEMPTS := 4   // _MIN_ATTEMPTS_IN_WINDOW

  /** The three validators of Settings together. */
  predicate ValidSettings(interval: int, windowDays: int) {
    && 60 <= interval <= 86400
    && 1 <= windowDays <= 29
    && windowDays * DAY > (MIN_ATTEMPTS - 1) * CAP + MIN_ATTEMPTS * interval
  }

  function Min(a: int, b: int): int {
    if a <= b then a else b
  }

  function Pow2(n: nat): nat {
    if n == 0 then 1 else 2 * Pow2(n - 1)
  }

  /** The wait after the given number of consecutive failures. */
  function Delay(interval: nat, failures: nat): nat
    requires failures > 0
  {
    Min(interval * Pow2(failures - 1), CAP)
  }

  /** The backoff is exponential: it starts at the interval and doubles with each further failure, up to a day. */
  lemma DelayDoubles(interval: nat, failures: nat)
    requires failures > 0
    ensures Delay(interval, 1) == if interval <= 86400 then interval else 86400
    ensures var d := Delay(interval, failures);
      Delay(interval, failures + 1) == if 2 * d <= 86400 then 2 * d else 86400
  {
    var p := Pow2(failures - 1);
    assert Pow2(failures) == 2 * p && interval * (2 * p) == 2 * (interval * p);
    assert interval * Pow2(0) == interval;
  }

  lemma DelayBounds(interval: nat, failures: nat)
    requires failures > 0
    ensures 0 <= Delay(interval, failures) <= CAP
  {
  }

  /** An unreadable expiry is due. */
  predicate Due(notAfter: Option<int>, windowDays: int, now: int) {
    notAfter.None? || notAfter.value - now <= windowDays * DAY
  }

  datatype Backoff = Backoff(failures: nat, deadline: int)

  predicate Waiting(entry: Option<Backoff>, now: int) {
    entry.Some? && now < entry.value.deadline
  }

  function Failed(entry: Option<Backoff>, interval: nat, now: int): Backoff {
    var failures := (if entry.Some? then entry.value.failures else 0) + 1;
    Backoff(failures, now + Delay(interval, failures))
  }

  class Backoffs {
    var entries: map<Instance, Backoff>

    function Entry(id: Instance): Option<Backoff>
      reads this
    {
      if id in entries then Some(entries[id]) else None
    }

    method InBackoff(id: Instance, now: int) returns (waiting: bool)
      ensures waiting <==> Waiting(Entry(id), now)
    {
      waiting := id in entries && now < entries[id].deadline;
    }

    method NoteFailure(id: Instance, interval: nat, now: int)
      modifies this
      ensures Entry(id) == Some(Failed(old(Entry(id)), interval, now))
      ensures Entry(id).value.failures == if old(Entry(id)).Some? then old(Entry(id)).value.failures + 1 else 1
      ensures entries.Keys == old(entries).Keys + {id}
      ensures forall other :: other in old(entries) && other != id ==> entries[other] == old(entries)[other]
    {
      var failures := (if id in entries then entries[id].failures else 0) + 1;
      var delay := Min(interval * Pow2(failures - 1), CAP);
      entries := entries[id := Backoff(failures, now + delay)];
    }

    method ClearBackoff(id: Instance)
      modifies this
      ensures Entry(id) == None && entries == old(entries) - {id}
    {
      entries := entries - {id};
    }

    /** The decision of _renew_locked for an instance whose every attempt fails, tick by tick;
        returns the times of the attempts. */
    method FollowTicks(id: Instance, interval: nat, windowDays: int, notAfter: Option<int>, ticks: seq<int>)
      returns (attempts: seq<int>)
      modifies this
      ensures attempts == Attempts(old(Entry(id)), interval, windowDays, notAfter, ticks)
    {
      hide Attempts, AfterTick, Failed, Delay, Pow2, Min;
      attempts := [];
      ghost var start := Entry(id);
      assert ticks[0..] == ticks;
      for i := 0 to |ticks|
        invariant Attempts(start, interval, windowDays, notAfter, ticks)
          == attempts + Attempts(Entry(id), interval, windowDays, notAfter, ticks[i..])
      {
        var now := ticks[i];
        ghost var entry := Entry(id);
        var waiting := InBackoff(id, now);
        if !waiting {
          if !Due(notAfter, windowDays, now) {
            ClearBackoff(id);
          } else {
            NoteFailure(id, interval, now);
            attempts := attempts + [now];
          }
        }
        AttemptsFrom(entry, interval, windowDays, notAfter, ticks, i);
        assert Entry(id) == AfterTick(entry, interval, windowDays, notAfter, now) by {
          AfterTickCases(entry, interval, windowDays, notAfter, now);
        }
      }
      assert ticks[|ticks|..] == [];
      NoTicks(Entry(id), interval, windowDays, notAfter);
    }
  }

  predicate Attempted(entry: Option<Backoff>, windowDays: int, notAfter: Option<int>, now: int) {
    !Waiting(entry, now) && Due(notAfter, windowDays, now)
  }

  function AfterTick(entry: Option<Backoff>, interval: nat, windowDays: int, notAfter: Option<int>, now: int)
    : Option<Backoff>
  {
    if Waiting(entry, now) then entry
    else if !Due(notAfter, windowDays, now) then None
    else Some(Failed(entry, interval, now))
  }

  /** The attempt times of an instance that fails at every attempt. */
  function Attempts(entry: Option<Backoff>, interval: nat, windowDays: int, notAfter: Option<int>, ticks: seq<int>)
    : seq<int>
    decreases |ticks|
  {
    if ticks == [] then []
    else
      (if Attempted(entry, windowDays, notAfter, ticks[0]) then [ticks[0]] else [])
      + Attempts(AfterTick(entry, interval, windowDays, notAfter, ticks[0]), interval, windowDays, notAfter, ticks[1..])
  }

  lemma AttemptsFrom(entry: Option<Backoff>, interval: nat, windowDays: int, notAfter: Option<int>, ticks: seq<int>,
                     i: nat)
    requires i < |ticks|
    ensures Attempts(entry, interval, windowDays, notAfter, ticks[i..])
         == (if Attempted(entry, windowDays, notAfter, ticks[i]) then [ticks[i]] else [])
          + Attempts(AfterTick(entry, interval, windowDays, notAfter, ticks[i]),
                     interval, windowDays, notAfter, ticks[i + 1..])
  {
    assert ticks[i..][1..] == ticks[i + 1..];
  }

  lemma NoTicks(entry: Option<Backoff>, interval: nat, windowDays: int, notAfter: Option<int>)
    ensures Attempts(entry, interval, windowDays, notAfter, []) == []
  {
  }

  lemma AfterTickCases(entry: Option<Backoff>, interval: nat, windowDays: int, notAfter: Option<int>, now: int)
    ensures var next := AfterTick(entry, interval, windowDays, notAfter, now);
      next == if Waiting(entry, now) then entry
              else if Due(notAfter, windowDays, now) then Some(Failed(entry, interval, now)) else None
  {
  }

  /** A tick before the deadline changes nothing, one that finds the certificate healthy forgets every failure, and
      any other makes the failures one more. */
  lemma AfterTickIs(failures: nat, deadline: int, interval: nat, windowDays: int, notAfter: Option<int>, now: int)
    ensures var entry := Some(Backoff(failures, deadline));
      var next := AfterTick(entry, interval, windowDays, notAfter, now);
      && (now < deadline ==> next == entry)
      && (deadline <= now && notAfter.Some? && now + windowDays * 86400 < notAfter.value ==> next == None)
      && (deadline <= now && (notAfter.None? || notAfter.value <= now + windowDays * 86400) ==>
            next.Some? && next.value.failures == failures + 1 && next.value.deadline <= now + 86400)
  {
  }

  predicate Ticks(ticks: seq<int>, interval: int) {
    forall i :: 0 <= i < |ticks| - 1 ==> ticks[i] <= ticks[i + 1] <= ticks[i] + interval
  }

  // ---- Enough attempts before expiry ---------------------------------------------------

  /** The latest time of the k-th attempt from here, when the next one is allowed from `from` on. */
  function Latest(from: int, interval: nat, k: nat): int
    requires k > 0
    decreases k
  {
    if k == 1 then from + interval else Latest(from + interval + CAP, interval, k - 1)
  }

  lemma {:induction false} LatestIsMonotone(a: int, b: int, interval: nat, k: nat)
    requires k > 0 && a <= b
    ensures Latest(a, interval, k) <= Latest(b, interval, k)
    ensures a + interval <= Latest(a, interval, k)
    decreases k
  {
    if k > 1 {
      LatestIsMonotone(a + interval + CAP, b + interval + CAP, interval, k - 1);
    }
  }

  /** When the entry allows the next attempt. */
  function From(entry: Option<Backoff>, due: int): int {
    if entry.Some? && entry.value.deadline > due then entry.value.deadline else due
  }

  lemma {:induction false} AttemptsInTime(entry: Option<Backoff>, interval: nat, windowDays: int, expiry: int,
                                          ticks: seq<int>, k: nat)
    requires k > 0 && ticks != [] && Ticks(ticks, interval)
    requires var from := From(entry, expiry - windowDays * DAY);
      ticks[0] <= from + interval && Latest(from, interval, k) < expiry <= ticks[|ticks| - 1]
    ensures var a, from :=
        Attempts(entry, interval, windowDays, Some(expiry), ticks), From(entry, expiry - windowDays * DAY);
      |a| >= k && a[k - 1] <= Latest(from, interval, k)
    decreases |ticks|
  {
    hide Delay, Pow2;
    var due := expiry - windowDays * DAY;
    var from := From(entry, due);
    var now, rest := ticks[0], ticks[1..];
    LatestIsMonotone(from, from, interval, k);
    var next := AfterTick(entry, interval, windowDays, Some(expiry), now);
    if now < from {
      assert From(next, due) == from;
      AttemptsInTime(next, interval, windowDays, expiry, rest, k);
    } else if k > 1 {
      DelayBounds(interval, Failed(entry, interval, now).failures);
      assert From(next, due) <= from + interval + CAP;
      LatestIsMonotone(From(next, due), from + interval + CAP, interval, k - 1);
      AttemptsInTime(next, interval, windowDays, expiry, rest, k - 1);
    }
  }

  /** What the validator promises: with settings it accepts, an instance that fails at every attempt and
      enters its window without a backoff is attempted at least four times strictly before its certificate
      expires, however the ticks fall, as long as no two are further apart than the interval. */
  lemma FourAttemptsBeforeExpiry(interval: nat, windowDays: int, expiry: int, ticks: seq<int>)
    requires ValidSettings(interval, windowDays)
    requires ticks != [] && Ticks(ticks, interval)
    requires ticks[0] <= expiry - windowDays * DAY + interval && expiry <= ticks[|ticks| - 1]
    ensures var a := Attempts(None, interval, windowDays, Some(expiry), ticks);
      |a| >= MIN_ATTEMPTS && a[MIN_ATTEMPTS - 1] < expiry
  {
    var from := expiry - windowDays * DAY;
    calc {
      Latest(from, interval, 4);
      Latest(from + interval + CAP, interval, 3);
      Latest(from + 2 * (interval + CAP), interval, 2);
      Latest(from + 3 * (interval + CAP), interval, 1);
      from + 3 * CAP + 4 * interval;
    }
    AttemptsInTime(None, interval, windowDays, expiry, ticks, 4);
  }

  /** Why the bound has an interval term: four caps alone would accept a 5-day window at a 20-hour interval,
      whose fourth attempt falls exactly on expiry. */
  lemma IntervalTermIsNeeded()
    ensures var interval, windowDays, expiry := 72000, 5, 432000;
      && windowDays * DAY > MIN_ATTEMPTS * CAP && !ValidSettings(interval, windowDays)
      && var ticks := [72000, 144000, 216000, 288000, 360000, 432000];
      && Ticks(ticks, interval)
      && Attempts(None, interval, windowDays, Some(expiry), ticks) == [72000, 144000, 288000, 432000]
  {
    hide Delay;
    var e := Some(432000);
    FixedDelays();
    TickOf(Some(Backoff(3, 374400)), 432000, []);
    TickOf(Some(Backoff(3, 374400)), 360000, [432000]);
    TickOf(Some(Backoff(2, 230400)), 288000, [360000, 432000]);
    TickOf(Some(Backoff(2, 230400)), 216000, [288000, 360000, 432000]);
    TickOf(Some(Backoff(1, 144000)), 144000, [216000, 288000, 360000, 432000]);
    TickOf(None, 72000, [144000, 216000, 288000, 360000, 432000]);
    assert Attempts(Some(Backoff(3, 374400)), 72000, 5, e, [360000, 432000]) == [432000];
    assert Attempts(Some(Backoff(2, 230400)), 72000, 5, e, [216000, 288000, 360000, 432000]) == [288000, 432000];
  }

  lemma FixedDelays()
    ensures Delay(72000, 1) == 72000 && Delay(72000, 2) == CAP && Delay(72000, 3) == CAP
  {
  }

  lemma TickOf(entry: Option<Backoff>, now: int, rest: seq<int>)
    ensures var e := Some(432000);
      Attempts(entry, 72000, 5, e, [now] + rest) == (if Attempted(entry, 5, e, now) then [now] else [])
        + Attempts(AfterTick(entry, 72000, 5, e, now), 72000, 5, e, rest)
  {
    assert ([now] + rest)[1..] == rest;
  }

  // ---- Few enough attempts --------------------------------------------------------------

  /** The sum of the delays after failures first+1, ..., first+k. */
  function DelaySum(interval: nat, first: nat, k: nat): nat
    decreases k
  {
    if k == 0 then 0 else Delay(interval, first + 1) + DelaySum(interval, first + 1, k - 1)
  }

  /** n waits, the first of the given length and each further one twice as long, up to a day. */
  function Doubling(first: nat, n: nat): nat
    decreases n
  {
    if n == 0 then 0 else first + Doubling(if 2 * first <= 86400 then 2 * first else 86400, n - 1)
  }

  lemma {:induction false} DelaysAreDoubling(interval: nat, first: nat, k: nat)
    ensures DelaySum(interval, first, k) == Doubling(Delay(interval, first + 1), k)
    decreases k
  {
    hide Delay;
    if k > 0 {
      DelayDoubles(interval, first + 1);
      DelaysAreDoubling(interval, first + 1, k - 1);
    }
  }

  /** At the default interval of six hours: six, twelve, and then a day each. */
  lemma {:induction false} DefaultWaits(n: nat)
    ensures Doubling(86400, n) == n * 86400
    ensures n >= 2 ==> Doubling(21600, n) == 64800 + (n - 2) * 86400
  {
    if n > 0 {
      DefaultWaits(n - 1);
    }
    if n >= 2 {
      DefaultWaits(n - 2);
      assert Doubling(21600, n) == 21600 + Doubling(43200, n - 1);
      assert Doubling(43200, n - 1) == 43200 + Doubling(86400, n - 2);
    }
  }

  lemma {:induction false} AttemptsSpacedFrom(b: Backoff, interval: nat, windowDays: int, notAfter: Option<int>,
                                              ticks: seq<int>, k: nat)
    requires Ticks(ticks, interval) && (ticks != [] ==> Due(notAfter, windowDays, ticks[0]))
    requires k < |Attempts(Some(b), interval, windowDays, notAfter, ticks)|
    ensures Attempts(Some(b), interval, windowDays, notAfter, ticks)[k]
      >= b.deadline + DelaySum(interval, b.failures, k)
    decreases |ticks|
  {
    var now, rest := ticks[0], ticks[1..];
    assert rest != [] ==> rest[0] == ticks[1];
    if Waiting(Some(b), now) {
      AttemptsSpacedFrom(b, interval, windowDays, notAfter, rest, k);
    } else if k > 0 {
      AttemptsSpacedFrom(Failed(Some(b), interval, now), interval, windowDays, notAfter, rest, k - 1);
    }
  }

  /** Issuance is bounded: n+1 attempts of one failing instance span at least n waits that start at the interval and
      double up to a day. */
  lemma {:induction false} AttemptsSpanTheirDelays(interval: nat, windowDays: int, notAfter: Option<int>,
                                                   ticks: seq<int>, n: nat)
    requires Ticks(ticks, interval)
    requires n < |Attempts(None, interval, windowDays, notAfter, ticks)|
    ensures var a := Attempts(None, interval, windowDays, notAfter, ticks);
      a[n] - a[0] >= Doubling(if interval <= 86400 then interval else 86400, n)
    decreases |ticks|
  {
    DelaysAreDoubling(interval, 0, n);
    DelayDoubles(interval, 1);
    var now, rest := ticks[0], ticks[1..];
    assert rest != [] ==> rest[0] == ticks[1];
    if !Due(notAfter, windowDays, now) {
      AttemptsSpanTheirDelays(interval, windowDays, notAfter, rest, n);
    } else if n > 0 {
      AttemptsSpacedFrom(Failed(None, interval, now), interval, windowDays, notAfter, rest, n - 1);
    }
  }

  // ---- The worker's ticks -----------------------------------------------------------------

  const DEFERRED_RETRY_SECONDS := 120
  const CAPPED_RETRY_SECONDS := 3600

  datatype PassOutcome = Completed(deferred: nat) | AlreadyRunning | AuthLost | Capped | Crashed

  /** The delay the worker carries into its next sleep. */
  function NextDelay(outcome: PassOutcome, interval: int): int {
    match outcome
    case Completed(deferred) => if deferred > 0 then Min(DEFERRED_RETRY_SECONDS, interval) else interval
    case AlreadyRunning => Min(DEFERRED_RETRY_SECONDS, interval)
    case AuthLost => Min(DEFERRED_RETRY_SECONDS, interval)
    case Capped => Min(CAPPED_RETRY_SECONDS, interval)
    case Crashed => interval
  }

  lemma NextDelayBounds(outcome: PassOutcome, interval: int)
    requires 60 <= interval
    ensures 60 <= NextDelay(outcome, interval) <= interval
  {
  }

  /** What one turn of the worker loop meets: how long it waits to be registered after its sleep, how its pass
      ends, and whether that pass got as far as deciding about the instance at hand. */
  datatype Turn = Turn(registration: nat, outcome: PassOutcome, reached: bool)

  /** A pass that left somebody for later, was displaced or lost its token comes back within two minutes. */
  predicate RetriesSoon(outcome: PassOutcome) {
    outcome.AlreadyRunning? || outcome.AuthLost? || (outcome.Completed? && outcome.deferred > 0)
  }

  /** A pass that finds another one running reaches nobody. */
  predicate Possible(turns: seq<Turn>) {
    forall i :: 0 <= i < |turns| && turns[i].reached ==> !turns[i].outcome.AlreadyRunning?
  }

  /** cert_renewal_worker from boot, one turn after the other, with the given startup jitter. */
  method RunWorker(boot: int, jitter: nat, interval: int, turns: seq<Turn>) returns (ticks: seq<int>)
    requires 60 <= interval
    ensures |ticks| == |turns|
    ensures forall i :: 0 <= i < |ticks| - 1 ==>
      ticks[i + 1] == ticks[i] + NextDelay(turns[i].outcome, interval) + turns[i + 1].registration
    ensures ticks != [] ==> ticks[0] == boot + Min(jitter, interval) + turns[0].registration
    ensures forall i :: 0 <= i < |ticks| - 1 && RetriesSoon(turns[i].outcome) ==>
      ticks[i + 1] <= ticks[i] + 120 + turns[i + 1].registration
    ensures forall i :: 0 <= i < |ticks| - 1 && turns[i].outcome.Capped? ==>
      ticks[i + 1] <= ticks[i] + 3600 + turns[i + 1].registration
    ensures forall i :: 0 <= i < |ticks| - 1 && (turns[i].outcome == Completed(0) || turns[i].outcome.Crashed?) ==>
      ticks[i + 1] == ticks[i] + interval + turns[i + 1].registration
  {
    ticks := [];
    var delay := Min(jitter, interval);
    var now := boot;
    for i := 0 to |turns|
      invariant |ticks| == i
      invariant ticks == [] ==> now == boot && delay == Min(jitter, interval)
      invariant ticks != [] ==> now == ticks[i - 1] && delay == NextDelay(turns[i - 1].outcome, interval)
      invariant forall j :: 0 <= j < i - 1 ==>
        ticks[j + 1] == ticks[j] + NextDelay(turns[j].outcome, interval) + turns[j + 1].registration
      invariant ticks != [] ==> ticks[0] == boot + Min(jitter, interval) + turns[0].registration
    {
      now := now + delay;
      delay := interval;
      now := now + turns[i].registration;
      ticks := ticks + [now];
      match turns[i].outcome {
        case Completed(deferred) =>
          if deferred > 0 {
            delay := Min(DEFERRED_RETRY_SECONDS, interval);
          }
        case AlreadyRunning => delay := Min(DEFERRED_RETRY_SECONDS, interval);
        case AuthLost => delay := Min(DEFERRED_RETRY_SECONDS, interval);
        case Capped => delay := Min(CAPPED_RETRY_SECONDS, interval);
        case Crashed =>
      }
      assert delay == NextDelay(turns[i].outcome, interval);
    }
  }

  /** The ticks at which a pass reached the instance. */
  function Reached(ticks: seq<int>, turns: seq<Turn>): (r: seq<int>)
    requires |ticks| == |turns|
  {
    if ticks == [] then []
    else (if turns[0].reached then [ticks[0]] else []) + Reached(ticks[1..], turns[1..])
  }

  /** A worker that stays registered and whose every pass reaches the instance ticks for it at most an interval
      apart, whatever else its passes answer. */
  lemma {:induction false} EveryPassReaches(ticks: seq<int>, turns: seq<Turn>, interval: int)
    requires 60 <= interval && |ticks| == |turns|
    requires forall i :: 0 <= i < |turns| ==> turns[i].registration == 0 && turns[i].reached
    requires forall i :: 0 <= i < |ticks| - 1 ==>
      ticks[i + 1] == ticks[i] + NextDelay(turns[i].outcome, interval) + turns[i + 1].registration
    ensures Reached(ticks, turns) == ticks && Ticks(ticks, interval)
    decreases |ticks|
  {
    if ticks != [] {
      var rest, later := ticks[1..], turns[1..];
      forall i | 0 <= i < |rest| - 1
        ensures rest[i + 1] == rest[i] + NextDelay(later[i].outcome, interval) + later[i + 1].registration
      {
        assert ticks[i + 2] == ticks[i + 1] + NextDelay(turns[i + 1].outcome, interval) + turns[i + 2].registration;
      }
      EveryPassReaches(rest, later, interval);
      assert ticks == [ticks[0]] + rest;
      forall i | 0 <= i < |ticks| - 1 ensures ticks[i] <= ticks[i + 1] <= ticks[i] + interval {
        NextDelayBounds(turns[i].outcome, interval);
      }
    }
  }

  /** An attempt is made at a tick that reached the instance with its expiry within the window, or unreadable, and
      at no other time. */
  lemma {:induction false} AttemptsAreTicks(entry: Option<Backoff>, interval: nat, windowDays: int,
                                            notAfter: Option<int>, ticks: seq<int>, t: int)
    requires t in Attempts(entry, interval, windowDays, notAfter, ticks)
    ensures t in ticks && (notAfter.None? || notAfter.value <= t + windowDays * 86400)
    decreases |ticks|
  {
    var next := AfterTick(entry, interval, windowDays, notAfter, ticks[0]);
    if t in Attempts(next, interval, windowDays, notAfter, ticks[1..]) {
      AttemptsAreTicks(next, interval, windowDays, notAfter, ticks[1..], t);
    }
  }

  /** The other way: an instance without a backoff is attempted at the first tick at which its expiry is unreadable or
      within the window. */
  lemma FirstDueTickAttempts(interval: nat, windowDays: int, notAfter: Option<int>, ticks: seq<int>)
    requires ticks != [] && (notAfter.None? || notAfter.value <= ticks[0] + windowDays * 86400)
    ensures var a := Attempts(None, interval, windowDays, notAfter, ticks); a != [] && a[0] == ticks[0]
  {
  }

  /** The settings as shipped are accepted: every six hours, a window of seven days. */
  lemma DefaultsAreValid()
    ensures ValidSettings(21600, 7) && !ValidSettings(59, 7) && !ValidSettings(86401, 29)
    ensures !ValidSettings(21600, 0) && !ValidSettings(21600, 30) && !ValidSettings(86400, 7) && ValidSettings(86400, 8)
  {
  }

  /** End to end: the worker's turns, the backoff table and the validator. An instance is attempted at ticks whose
      pass reached it only; and if those come at most an interval apart, from an interval after its window opens
      to past its expiry, it gets its four attempts before it expires. */
  method WorkerDeliversFourAttempts(backoffs: Backoffs, id: Instance, boot: int, jitter: nat, interval: nat,
                                    windowDays: int, expiry: int, turns: seq<Turn>)
    returns (ticks: seq<int>, attempts: seq<int>)
    requires ValidSettings(interval, windowDays) && backoffs.Entry(id) == None && Possible(turns)
    modifies backoffs
    ensures |ticks| == |turns|
    ensures attempts == Attempts(None, interval, windowDays, Some(expiry), Reached(ticks, turns))
    ensures forall t :: t in attempts ==> t in Reached(ticks, turns)
    ensures var reached := Reached(ticks, turns);
      && Ticks(reached, interval) && reached != []
      && reached[0] <= expiry - windowDays * DAY + interval && expiry <= reached[|reached| - 1]
      ==> |attempts| >= MIN_ATTEMPTS && attempts[MIN_ATTEMPTS - 1] < expiry
    ensures (forall i :: 0 <= i < |turns| ==> turns[i].registration == 0 && turns[i].reached)
      && ticks != [] && boot <= expiry - windowDays * DAY && expiry <= ticks[|ticks| - 1]
      ==> |attempts| >= MIN_ATTEMPTS && attempts[MIN_ATTEMPTS - 1] < expiry
  {
    hide Attempts;
    ticks := RunWorker(boot, jitter, interval, turns);
    var reached := Reached(ticks, turns);
    attempts := backoffs.FollowTicks(id, interval, windowDays, Some(expiry), reached);
    forall t | t in attempts ensures t in reached {
      AttemptsAreTicks(None, interval, windowDays, Some(expiry), reached, t);
    }
    if forall i :: 0 <= i < |turns| ==> turns[i].registration == 0 && turns[i].reached {
      EveryPassReaches(ticks, turns, interval);
    }
    if Ticks(reached, interval) && reached != [] && reached[0] <= expiry - windowDays * DAY + interval
       && expiry <= reached[|reached| - 1] {
      FourAttemptsBeforeExpiry(interval, windowDays, expiry, reached);
    }
  }

  /** Nothing bounds how long passes may miss an instance: where every pass finds another one running, it is never
      attempted. */
  lemma {:induction false} UnreachedIsNeverAttempted(ticks: seq<int>, turns: seq<Turn>, interval: nat,
                                                     windowDays: int, expiry: int)
    requires |ticks| == |turns| && Possible(turns)
    requires forall i :: 0 <= i < |turns| ==> turns[i].outcome.AlreadyRunning?
    ensures Attempts(None, interval, windowDays, Some(expiry), Reached(ticks, turns)) == []
    decreases |ticks|
  {
    if ticks != [] {
      assert !turns[0].reached;
      UnreachedIsNeverAttempted(ticks[1..], turns[1..], interval, windowDays, expiry);
      assert [] + Reached(ticks[1..], turns[1..]) == Reached(ticks[1..], turns[1..]);
    }
  }
}
