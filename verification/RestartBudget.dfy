/** The restart budget of a supervised process: a restart is scheduled only while fewer than
    `MAX_RESTARTS` failures have been recorded within the failure window. */
module RestartBudget {

  const MAX_RESTARTS: nat := 5
  const FAILURE_WINDOW_MS: int := 300_000

  /** Keep the timestamps less than a window old, in order. */
  function Recent(times: seq<int>, now: int): (recent: seq<int>)
    ensures |recent| <= |times|
  {
    if times == [] then []
    else
      var (rest, last) := (times[..|times| - 1], times[|times| - 1]);
      Recent(rest, now) + (if now - last < FAILURE_WINDOW_MS then [last] else [])
  }

  /** The failures kept, and, for the statement of the budget, every failure recorded and every
      restart scheduled since the history was last cleared. */
  datatype Budget = Budget(failures: seq<int>, recorded: seq<int>, scheduled: seq<int>)

  const Fresh: Budget := Budget([], [], [])

  function Record(b: Budget, now: int): Budget {
    b.(failures := Recent(b.failures + [now], now), recorded := b.recorded + [now])
  }

  /** `scheduleApiRestart`: suppressed while paused or without the database; otherwise the
      failure is recorded first and the restart scheduled if the budget allows. */
  function Schedule(b: Budget, now: int, suppressed: bool): Budget {
    if suppressed then b
    else
      var r := Record(b, now);
      if |r.failures| >= MAX_RESTARTS then r else r.(scheduled := r.scheduled + [now])
  }

  datatype Event = Fails(now: int) | Restarts(now: int, suppressed: bool)

  function Apply(b: Budget, e: Event): Budget {
    match e
    case Fails(now) => Record(b, now)
    case Restarts(now, suppressed) => Schedule(b, now, suppressed)
  }

  /** The budget after some events since the last reset. */
  function After(events: seq<Event>): Budget {
    if events == [] then Fresh else Apply(After(events[..|events| - 1]), events[|events| - 1])
  }

  /** The clock never goes back. */
  ghost predicate Ordered(events: seq<Event>) {
    forall i, j | 0 <= i <= j < |events| :: events[i].now <= events[j].now
  }

  ghost predicate Sorted(times: seq<int>) {
    forall i, j | 0 <= i <= j < |times| :: times[i] <= times[j]
  }

  // ---------------------------------------------------------------- the trimmed list is the whole history's tail

  lemma {:induction false} RecentTwice(times: seq<int>, early: int, late: int)
    requires early <= late
    ensures Recent(Recent(times, early), late) == Recent(times, late)
  {
    if times != [] {
      var (rest, last) := (times[..|times| - 1], times[|times| - 1]);
      RecentTwice(rest, early, late);
      var kept := Recent(rest, early);
      if early - last < FAILURE_WINDOW_MS {
        assert (kept + [last])[..|kept|] == kept;
      } else {
        assert kept + [] == kept;
      }
    }
  }

  lemma RecentAppended(times: seq<int>, early: int, late: int)
    requires early <= late
    ensures Recent(Recent(times, early) + [late], late) == Recent(times + [late], late)
  {
    RecentTwice(times, early, late);
    var kept := Recent(times, early);
    assert (kept + [late])[..|kept|] == kept;
    assert (times + [late])[..|times|] == times;
  }

  /** A sorted history is trimmed from the front only. */
  lemma {:induction false} RecentIsTail(times: seq<int>, now: int, i: nat)
    requires Sorted(times) && i < |times| && now - times[i] < FAILURE_WINDOW_MS
    ensures |Recent(times, now)| >= |times| - i
  {
    if i < |times| - 1 {
      var rest := times[..|times| - 1];
      assert Sorted(rest) && rest[i] == times[i];
      assert times[i] <= times[|times| - 1];
      RecentIsTail(rest, now, i);
    }
  }

  // ---------------------------------------------------------------- the budget

  /** What has been kept is what the whole history would keep, and restarts are spread out. */
  ghost predicate BudgetInv(b: Budget) {
    && Sorted(b.recorded) && Sorted(b.scheduled)
    && (b.recorded == [] ==> b.failures == [])
    && (b.recorded != [] ==> b.failures == Recent(b.recorded, b.recorded[|b.recorded| - 1]))
    && Spread(b.scheduled)
    && Subsequence(b.scheduled, b.recorded)
  }

  /** Any five restarts in a row take at least a window. */
  ghost predicate Spread(scheduled: seq<int>) {
    forall i: nat | i + MAX_RESTARTS - 1 < |scheduled| :: scheduled[i + MAX_RESTARTS - 1] - scheduled[i] >= FAILURE_WINDOW_MS
  }

  /** The last `k` restarts are among the last failures at or after the first of them. */
  ghost predicate Subsequence(scheduled: seq<int>, recorded: seq<int>) {
    forall i | 0 <= i < |scheduled| :: CountFrom(recorded, scheduled[i]) >= |scheduled| - i
  }

  /** How many failures were recorded at `t` or later. */
  ghost function CountFrom(recorded: seq<int>, t: int): nat {
    if recorded == [] then 0
    else CountFrom(recorded[..|recorded| - 1], t) + (if recorded[|recorded| - 1] >= t then 1 else 0)
  }

  lemma CountAppended(recorded: seq<int>, now: int, t: int)
    ensures CountFrom(recorded + [now], t) == CountFrom(recorded, t) + (if now >= t then 1 else 0)
  {
    assert (recorded + [now])[..|recorded|] == recorded;
  }

  lemma {:induction false} CountIsRecent(recorded: seq<int>, now: int, t: int)
    requires now - t < FAILURE_WINDOW_MS
    ensures CountFrom(recorded, t) <= |Recent(recorded, now)|
  {
    if recorded != [] { CountIsRecent(recorded[..|recorded| - 1], now, t); }
  }

  /** Everything so far happened by `now`. */
  ghost predicate NotAfter(b: Budget, now: int) {
    && (b.recorded != [] ==> b.recorded[|b.recorded| - 1] <= now)
    && (b.scheduled != [] ==> b.scheduled[|b.scheduled| - 1] <= now)
  }

  lemma SortedAppended(times: seq<int>, now: int)
    requires Sorted(times) && (times != [] ==> times[|times| - 1] <= now)
    ensures Sorted(times + [now])
  {
  }

  lemma RecordKeeps(b: Budget, now: int)
    requires BudgetInv(b) && NotAfter(b, now)
    ensures BudgetInv(Record(b, now)) && NotAfter(Record(b, now), now)
  {
    hide Sorted, Spread;
    var r := Record(b, now);
    SortedAppended(b.recorded, now);
    if b.recorded == [] {
      assert b.failures + [now] == b.recorded + [now];
    } else {
      RecentAppended(b.recorded, b.recorded[|b.recorded| - 1], now);
    }
    forall i | 0 <= i < |b.scheduled| ensures CountFrom(r.recorded, b.scheduled[i]) >= |b.scheduled| - i {
      CountAppended(b.recorded, now, b.scheduled[i]);
    }
  }

  /** One more restart, at the time of the failure just recorded. */
  lemma OneMore(recorded: seq<int>, scheduled: seq<int>, now: int)
    requires Subsequence(scheduled, recorded) && Sorted(scheduled) && (scheduled != [] ==> scheduled[|scheduled| - 1] <= now)
    ensures Subsequence(scheduled + [now], recorded + [now])
  {
    var more := scheduled + [now];
    forall i | 0 <= i < |more| ensures CountFrom(recorded + [now], more[i]) >= |more| - i {
      CountAppended(recorded, now, more[i]);
      if i < |scheduled| { assert more[i] == scheduled[i] && scheduled[i] <= scheduled[|scheduled| - 1]; }
    }
  }

  lemma ScheduleKeeps(b: Budget, now: int, suppressed: bool)
    requires BudgetInv(b) && NotAfter(b, now)
    ensures BudgetInv(Schedule(b, now, suppressed)) && NotAfter(Schedule(b, now, suppressed), now)
  {
    hide Sorted, Spread, Subsequence, Recent;
    if !suppressed {
      RecordKeeps(b, now);
      var (r, more) := (Record(b, now), b.scheduled + [now]);
      SortedAppended(b.scheduled, now);
      OneMore(b.recorded, b.scheduled, now);
      if |r.failures| < MAX_RESTARTS {
        assert more[..|more| - 1] == b.scheduled;
        SpreadKeeps(r.recorded, more, now);
      }
    }
  }

  /** A fifth restart within the window would have met five recent failures. */
  lemma SpreadKeeps(recorded: seq<int>, scheduled: seq<int>, now: int)
    requires scheduled != [] && scheduled[|scheduled| - 1] == now && Spread(scheduled[..|scheduled| - 1])
    requires Subsequence(scheduled, recorded) && |Recent(recorded, now)| < MAX_RESTARTS
    ensures Spread(scheduled)
  {
    forall i: nat | i + MAX_RESTARTS - 1 < |scheduled|
      ensures scheduled[i + MAX_RESTARTS - 1] - scheduled[i] >= FAILURE_WINDOW_MS
    {
      var before := scheduled[..|scheduled| - 1];
      if i + MAX_RESTARTS - 1 < |before| {
        assert before[i + MAX_RESTARTS - 1] - before[i] >= FAILURE_WINDOW_MS;
      } else if now - scheduled[i] < FAILURE_WINDOW_MS {
        CountIsRecent(recorded, now, scheduled[i]);
      }
    }
  }

  lemma {:induction false} AfterKeeps(events: seq<Event>)
    requires Ordered(events)
    ensures BudgetInv(After(events))
    ensures if events == [] then After(events) == Fresh else NotAfter(After(events), events[|events| - 1].now)
  {
    hide BudgetInv, Record, Schedule, Recent, NotAfter;
    if events == [] {
      FreshKeeps();
    } else {
      var (rest, e) := (events[..|events| - 1], events[|events| - 1]);
      AfterKeeps(rest);
      RestIsEarlier(rest, e, events);
      match e
      case Fails(now) => RecordKeeps(After(rest), now);
      case Restarts(now, suppressed) => ScheduleKeeps(After(rest), now, suppressed);
    }
  }

  lemma RestIsEarlier(rest: seq<Event>, e: Event, events: seq<Event>)
    requires Ordered(events) && events == rest + [e]
    requires if rest == [] then After(rest) == Fresh else NotAfter(After(rest), rest[|rest| - 1].now)
    ensures NotAfter(After(rest), e.now)
  {
    hide After;
    if rest != [] { assert events[|rest| - 1].now <= events[|rest|].now; }
  }

  lemma FreshKeeps()
    ensures BudgetInv(Fresh)
  {
  }

  /** How many restarts were scheduled from `from` to `to`. */
  ghost function Within(scheduled: seq<int>, from: int, to: int): nat {
    if scheduled == [] then 0
    else
      var last := scheduled[|scheduled| - 1];
      Within(scheduled[..|scheduled| - 1], from, to) + (if from <= last <= to then 1 else 0)
  }

  /** Since the last reset, any interval shorter than the window holds at most `MAX_RESTARTS - 1`
      scheduled restarts, whatever else failed. */
  lemma AtMostFourPerWindow(events: seq<Event>, from: int, to: int)
    requires Ordered(events) && to - from < FAILURE_WINDOW_MS
    ensures Within(After(events).scheduled, from, to) <= MAX_RESTARTS - 1
  {
    AfterKeeps(events);
    WithinFour(After(events).scheduled, from, to);
  }

  lemma {:induction false} WithinFour(scheduled: seq<int>, from: int, to: int)
    requires Sorted(scheduled) && Spread(scheduled) && to - from < FAILURE_WINDOW_MS
    ensures Within(scheduled, from, to) <= MAX_RESTARTS - 1
  {
    if scheduled != [] {
      var n := |scheduled|;
      var rest := scheduled[..n - 1];
      if from <= scheduled[n - 1] <= to {
        WithinLast(scheduled, from, to, MAX_RESTARTS - 1);
        if n >= MAX_RESTARTS {
          var early := n - MAX_RESTARTS;
          assert scheduled[early + MAX_RESTARTS - 1] - scheduled[early] >= FAILURE_WINDOW_MS;
          WithinNone(scheduled[..early + 1], from, to);
        }
      } else {
        assert Spread(rest) by {
          forall i: nat | i + MAX_RESTARTS - 1 < |rest| ensures rest[i + MAX_RESTARTS - 1] - rest[i] >= FAILURE_WINDOW_MS {
            assert scheduled[i + MAX_RESTARTS - 1] - scheduled[i] >= FAILURE_WINDOW_MS;
          }
        }
        WithinFour(rest, from, to);
      }
    }
  }

  /** All but the last `k` restarts, plus at most `k`. */
  lemma {:induction false} WithinLast(scheduled: seq<int>, from: int, to: int, k: nat)
    ensures Within(scheduled, from, to) <= (if |scheduled| <= k then |scheduled| else Within(scheduled[..|scheduled| - k], from, to) + k)
  {
    if k == 0 {
      assert scheduled[..|scheduled|] == scheduled;
    } else if scheduled != [] {
      var rest := scheduled[..|scheduled| - 1];
      WithinLast(rest, from, to, k - 1);
      if |scheduled| > k { assert rest[..|rest| - (k - 1)] == scheduled[..|scheduled| - k]; }
    }
  }

  lemma {:induction false} WithinNone(scheduled: seq<int>, from: int, to: int)
    requires forall i | 0 <= i < |scheduled| :: scheduled[i] < from
    ensures Within(scheduled, from, to) == 0
  {
    if scheduled != [] { WithinNone(scheduled[..|scheduled| - 1], from, to); }
  }

  // ---------------------------------------------------------------- exactly when a restart is scheduled

  /** The failures of the list that are less than a window old. */
  ghost function RecentIn(times: seq<int>, now: int): set<int> {
    set i | 0 <= i < |times| && now - times[i] < FAILURE_WINDOW_MS
  }

  lemma {:induction false} RecentCounts(times: seq<int>, now: int)
    ensures |Recent(times, now)| == |RecentIn(times, now)|
  {
    if times == [] {
      assert RecentIn(times, now) == {};
    } else {
      var (n, rest) := (|times| - 1, times[..|times| - 1]);
      RecentCounts(rest, now);
      assert RecentIn(times, now) == RecentIn(rest, now) + (if now - times[n] < FAILURE_WINDOW_MS then {n} else {});
    }
  }

  /** A failure, or a restart that was asked for and not suppressed, is recorded. */
  predicate Counts(e: Event) { e.Fails? || !e.suppressed }

  /** The events that count and are less than a window old. */
  ghost function RecentFailures(events: seq<Event>, now: int): set<int> {
    set i | 0 <= i < |events| && Counts(events[i]) && now - events[i].now < FAILURE_WINDOW_MS
  }

  lemma OneMoreFailure(rest: seq<Event>, e: Event, now: int)
    ensures |RecentFailures(rest + [e], now)|
            == |RecentFailures(rest, now)| + (if Counts(e) && now - e.now < FAILURE_WINDOW_MS then 1 else 0)
  {
    var events := rest + [e];
    assert RecentFailures(events, now)
           == RecentFailures(rest, now) + (if Counts(e) && now - e.now < FAILURE_WINDOW_MS then {|rest|} else {});
  }

  lemma OneMoreRecorded(rest: seq<Event>, e: Event)
    ensures After(rest + [e]).recorded == After(rest).recorded + (if Counts(e) then [e.now] else [])
  {
    hide Recent;
    assert (rest + [e])[..|rest|] == rest;
  }

  lemma RecentOneMore(times: seq<int>, t: int, now: int)
    ensures |Recent(times + [t], now)| == |Recent(times, now)| + (if now - t < FAILURE_WINDOW_MS then 1 else 0)
  {
    assert (times + [t])[..|times|] == times;
  }

  lemma {:induction false} RecordedCounts(events: seq<Event>, now: int)
    ensures |Recent(After(events).recorded, now)| == |RecentFailures(events, now)|
  {
    if events == [] {
      assert RecentFailures(events, now) == {};
    } else {
      hide Recent, RecentFailures, After;
      var (rest, e) := (events[..|events| - 1], events[|events| - 1]);
      assert rest + [e] == events;
      RecordedCounts(rest, now);
      OneMoreFailure(rest, e, now);
      OneMoreRecorded(rest, e);
      RecentOneMore(After(rest).recorded, e.now, now);
      assert After(rest).recorded + [] == After(rest).recorded;
    }
  }

  /** With a clock that never goes back, a restart that is asked for is scheduled exactly when it is not
      suppressed and fewer than `MAX_RESTARTS` failures, this one included, are less than a window old. */
  lemma RestartsExactlyWhen(events: seq<Event>)
    requires Ordered(events) && events != [] && events[|events| - 1].Restarts?
    ensures var (rest, e) := (events[..|events| - 1], events[|events| - 1]);
            After(events).scheduled
            == After(rest).scheduled + (if !e.suppressed && |RecentFailures(events, e.now)| < MAX_RESTARTS then [e.now] else [])
  {
    hide RecentFailures, Recent;
    var (rest, e) := (events[..|events| - 1], events[|events| - 1]);
    AfterKeeps(events);
    RecordedCounts(events, e.now);
    assert After(rest).scheduled + [] == After(rest).scheduled;
    if !e.suppressed { assert After(events).failures == Record(After(rest), e.now).failures; }
  }

  // ---------------------------------------------------------------- in place

  class ManagedProcess {
    var restartCount: nat
    var failureTimestamps: seq<int>
    var failed: bool
    ghost var history: Budget

    ghost predicate Valid() reads this { failureTimestamps == history.failures }

    constructor ()
      ensures Valid() && history == Fresh
    {
      restartCount, failureTimestamps, failed, history := 0, [], false, Fresh;
    }

    /** A lifecycle operation that reached readiness clears the history. */
    method Reset()
      modifies this
      ensures Valid() && history == Fresh
    {
      restartCount, failureTimestamps, history := 0, [], Fresh;
    }

    method RecordFailure(now: int)
      requires Valid()
      modifies this`failureTimestamps, this`failed, this`history
      ensures Valid() && history == Record(old(history), now)
      ensures failed <==> old(failed) || |failureTimestamps| >= MAX_RESTARTS
    {
      var all := failureTimestamps + [now];
      var kept: seq<int> := [];
      for i := 0 to |all|
        invariant kept == Recent(all[..i], now)
      {
        assert all[..i + 1][..i] == all[..i];
        if now - all[i] < FAILURE_WINDOW_MS { kept := kept + [all[i]]; }
      }
      assert all[..|all|] == all;
      failureTimestamps := kept;
      history := Record(history, now);
      if |kept| >= MAX_RESTARTS { failed := true; }
    }

    /** `scheduleApiRestart` up to its decision. */
    method ScheduleRestart(now: int, suppressed: bool) returns (restart: bool)
      requires Valid()
      modifies this
      ensures Valid() && history == Schedule(old(history), now, suppressed)
      ensures restart <==> history.scheduled != old(history.scheduled)
      ensures restart <==> !suppressed && |RecentIn(old(failureTimestamps), now)| + 1 < MAX_RESTARTS
    {
      hide RecentIn;
      RecentCounts(failureTimestamps, now);
      assert (failureTimestamps + [now])[..|failureTimestamps|] == failureTimestamps;
      if suppressed { return false; }
      restartCount := restartCount + 1;
      RecordFailure(now);
      restart := |failureTimestamps| < MAX_RESTARTS;
      if restart { history := history.(scheduled := history.scheduled + [now]); }
    }
  }
}
