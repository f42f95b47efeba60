/** Overlapping calendar events: the sorted sweep with early exit, against the pairwise definition. */
module ConflictSweep {
  import opened Identifiers

  type EventId = int

  /** An event with both times; for Outlook, `cancelled` and times that may fail to parse. */
  datatype CalendarEvent = CalendarEvent(id: EventId, cancelled: bool, start: Option<int>, end: Option<int>)

  datatype Interval = Interval(id: EventId, start: int, end: int)

  // ---------------------------------------------------------------- specification

  predicate Overlap(a: Interval, b: Interval) { a.start < b.end && b.start < a.end }

  /** The ids of the intervals that overlap some other one. */
  ghost predicate InConflict(events: seq<Interval>, id: EventId) {
    exists i, j :: 0 <= i < |events| && 0 <= j < |events| && i != j && events[i].id == id && Overlap(events[i], events[j])
  }

  /** No event ends before, or at, its own start. */
  ghost predicate Proper(events: seq<Interval>) {
    forall i | 0 <= i < |events| :: events[i].start < events[i].end
  }

  ghost predicate SortedByStart(events: seq<Interval>) {
    forall i, j | 0 <= i <= j < |events| :: events[i].start <= events[j].start
  }

  ghost predicate Named(x: Interval, y: Interval, id: EventId) { x.id == id || y.id == id }

  /** `x` is listed before `y` once the list is sorted by start, ties in the order they came. */
  ghost predicate InputPair(events: seq<Interval>, x: Interval, y: Interval) {
    exists i, j :: 0 <= i < |events| && 0 <= j < |events| && i != j && events[i] == x && events[j] == y
                   && (x.start < y.start || (x.start == y.start && i < j))
  }

  /** `y` starts before `x` ends, and yet is over by the time `x` starts. */
  predicate Misleads(x: Interval, y: Interval) { y.start < x.end && y.end <= x.start }

  /** The ids named by such a pair: the later event has no length, or runs backwards. */
  ghost predicate Misled(events: seq<Interval>, id: EventId) {
    exists x, y :: InputPair(events, x, y) && Misleads(x, y) && Named(x, y, id)
  }

  /** Conflicts by ordered pairs. */
  lemma ConflictByPairs(events: seq<Interval>, id: EventId)
    ensures InConflict(events, id) <==> exists x, y :: InputPair(events, x, y) && Overlap(x, y) && Named(x, y, id)
  {
    if InConflict(events, id) {
      var i, j :| 0 <= i < |events| && 0 <= j < |events| && i != j && events[i].id == id && Overlap(events[i], events[j]);
      var (x, y) := (events[i], events[j]);
      assert InputPair(events, x, y) || InputPair(events, y, x);
      assert Overlap(y, x) && Named(x, y, id) && Named(y, x, id);
    }
    if exists x, y :: InputPair(events, x, y) && Overlap(x, y) && Named(x, y, id) {
      var x, y :| InputPair(events, x, y) && Overlap(x, y) && Named(x, y, id);
      var i, j :| 0 <= i < |events| && 0 <= j < |events| && i != j && events[i] == x && events[j] == y;
      assert Overlap(events[i], events[j]) && Overlap(events[j], events[i]);
    }
  }

  // ---------------------------------------------------------------- sorting

  /** The place of `e` among sorted events: after every event that does not start later. */
  function InsertByStart(e: Interval, sorted: seq<Interval>): (r: seq<Interval>)
    ensures |r| == |sorted| + 1
  {
    if sorted == [] || e.start < sorted[0].start then [e] + sorted
    else [sorted[0]] + InsertByStart(e, sorted[1..])
  }

  /** A stable sort by start time. */
  function SortByStart(events: seq<Interval>): (r: seq<Interval>)
    ensures |r| == |events|
  {
    if events == [] then [] else InsertByStart(events[|events| - 1], SortByStart(events[..|events| - 1]))
  }

  lemma {:induction false} InsertMembers(e: Interval, sorted: seq<Interval>)
    ensures multiset(InsertByStart(e, sorted)) == multiset(sorted) + multiset{e}
    ensures forall k | 0 <= k < |InsertByStart(e, sorted)| :: InsertByStart(e, sorted)[k] == e || InsertByStart(e, sorted)[k] in sorted
  {
    if sorted != [] && e.start >= sorted[0].start {
      InsertMembers(e, sorted[1..]);
      assert sorted == [sorted[0]] + sorted[1..];
    }
  }

  lemma {:induction false} InsertSorted(e: Interval, sorted: seq<Interval>)
    requires SortedByStart(sorted)
    ensures SortedByStart(InsertByStart(e, sorted))
  {
    if sorted != [] && e.start >= sorted[0].start {
      var (rest, r) := (sorted[1..], InsertByStart(e, sorted[1..]));
      InsertSorted(e, rest);
      InsertMembers(e, rest);
      forall i | 0 <= i < |r| ensures sorted[0].start <= r[i].start {
        if r[i] != e { var k :| 0 <= k < |rest| && rest[k] == r[i]; assert sorted[k + 1] == r[i]; }
      }
    }
  }

  lemma {:induction false} SortSorted(events: seq<Interval>)
    ensures SortedByStart(SortByStart(events)) && multiset(SortByStart(events)) == multiset(events)
  {
    if events != [] {
      var (rest, last) := (events[..|events| - 1], events[|events| - 1]);
      SortSorted(rest);
      InsertSorted(last, SortByStart(rest));
      InsertMembers(last, SortByStart(rest));
      assert events == rest + [last];
    }
  }

  /** `Array.sort` by start time, in place of the copy the filter made. */
  method Sort(events: seq<Interval>) returns (sorted: seq<Interval>)
    ensures sorted == SortByStart(events)
  {
    sorted := [];
    for i := 0 to |events|
      invariant sorted == SortByStart(events[..i])
    {
      assert events[..i + 1][..i] == events[..i];
      sorted := InsertByStart(events[i], sorted);
    }
    assert events[..|events|] == events;
  }

  // ---------------------------------------------------------------- the order sorting gives

  /** `x` stands before `y`. */
  ghost predicate PairIn(s: seq<Interval>, x: Interval, y: Interval) {
    exists a, b :: 0 <= a < b < |s| && s[a] == x && s[b] == y
  }

  lemma PairInCons(e: Interval, s: seq<Interval>, x: Interval, y: Interval)
    ensures PairIn([e] + s, x, y) <==> PairIn(s, x, y) || (x == e && y in s)
  {
    var t := [e] + s;
    if PairIn(t, x, y) {
      var a, b :| 0 <= a < b < |t| && t[a] == x && t[b] == y;
      assert s[b - 1] == y;
      if a > 0 { assert s[a - 1] == x; }
    }
    if PairIn(s, x, y) {
      var a, b :| 0 <= a < b < |s| && s[a] == x && s[b] == y;
      assert t[a + 1] == x && t[b + 1] == y;
    }
    if x == e && y in s {
      var b :| 0 <= b < |s| && s[b] == y;
      assert t[0] == x && t[b + 1] == y;
    }
  }

  /** An insertion puts the new event after those that start no later and before the others. */
  lemma {:induction false} InsertPairs(e: Interval, sorted: seq<Interval>, x: Interval, y: Interval)
    requires SortedByStart(sorted)
    ensures PairIn(InsertByStart(e, sorted), x, y)
            <==> PairIn(sorted, x, y) || (y == e && x in sorted && x.start <= e.start) || (x == e && y in sorted && e.start < y.start)
  {
    if sorted == [] || e.start < sorted[0].start {
      PairInCons(e, sorted, x, y);
      assert forall k | 0 <= k < |sorted| :: e.start < sorted[k].start;
    } else {
      var (head, rest) := (sorted[0], sorted[1..]);
      assert sorted == [head] + rest;
      InsertPairs(e, rest, x, y);
      InsertMembers(e, rest);
      PairInCons(head, rest, x, y);
      PairInCons(head, InsertByStart(e, rest), x, y);
      InsertedIn(e, rest, y);
    }
  }

  lemma InsertedIn(e: Interval, sorted: seq<Interval>, y: Interval)
    ensures y in InsertByStart(e, sorted) <==> y == e || y in sorted
  {
    InsertMembers(e, sorted);
    assert y in InsertByStart(e, sorted) <==> y in multiset(InsertByStart(e, sorted));
    assert y in sorted <==> y in multiset(sorted);
  }

  lemma AppendPairs(rest: seq<Interval>, last: Interval, x: Interval, y: Interval)
    ensures InputPair(rest + [last], x, y)
            <==> InputPair(rest, x, y) || (y == last && x in rest && x.start <= last.start) || (x == last && y in rest && last.start < y.start)
  {
    var all := rest + [last];
    if InputPair(all, x, y) {
      var i, j :| 0 <= i < |all| && 0 <= j < |all| && i != j && all[i] == x && all[j] == y
                  && (x.start < y.start || (x.start == y.start && i < j));
      if i < |rest| { assert rest[i] == x; }
      if j < |rest| { assert rest[j] == y; }
    }
    if InputPair(rest, x, y) {
      var i, j :| 0 <= i < |rest| && 0 <= j < |rest| && i != j && rest[i] == x && rest[j] == y
                  && (x.start < y.start || (x.start == y.start && i < j));
      assert all[i] == x && all[j] == y;
    }
    if y == last && x in rest && x.start <= last.start {
      var i :| 0 <= i < |rest| && rest[i] == x;
      assert all[i] == x && all[|rest|] == y;
    }
    if x == last && y in rest && last.start < y.start {
      var j :| 0 <= j < |rest| && rest[j] == y;
      assert all[|rest|] == x && all[j] == y;
    }
  }

  /** The sort is stable and by start. */
  lemma {:induction false} SortPairs(events: seq<Interval>, x: Interval, y: Interval)
    ensures PairIn(SortByStart(events), x, y) <==> InputPair(events, x, y)
  {
    if events != [] {
      var (rest, last) := (events[..|events| - 1], events[|events| - 1]);
      assert events == rest + [last];
      SortPairs(rest, x, y);
      SortSorted(rest);
      InsertPairs(last, SortByStart(rest), x, y);
      AppendPairs(rest, last, x, y);
      SameMembers(SortByStart(rest), rest);
    }
  }

  lemma SameMembers(x: seq<Interval>, y: seq<Interval>)
    requires multiset(x) == multiset(y)
    ensures forall e :: e in x <==> e in y
  {
    forall e ensures e in x <==> e in y {
      assert e in x <==> e in multiset(x);
      assert e in y <==> e in multiset(y);
    }
  }

  // ---------------------------------------------------------------- the sweep

  /** The later event starts before the earlier one ends. */
  predicate StartsWithin(a: Interval, b: Interval) { b.start < a.end }

  /** Once one event starts at or after another's end, so do all that follow it. */
  lemma NothingFurther(sorted: seq<Interval>, i: nat, j: nat)
    requires SortedByStart(sorted) && i < j < |sorted| && !StartsWithin(sorted[i], sorted[j])
    ensures forall k | j <= k < |sorted| :: !StartsWithin(sorted[i], sorted[k])
  {
  }

  /** Among the pairs examined once the inner loop of `i` has reached `j`, one that names `id`. */
  ghost predicate PairedBefore(sorted: seq<Interval>, i: nat, j: nat, id: EventId)
    requires i <= |sorted| && j <= |sorted|
  {
    exists a, b :: 0 <= a < b < |sorted| && (a < i || (a == i && b < j)) && StartsWithin(sorted[a], sorted[b])
                   && (sorted[a].id == id || sorted[b].id == id)
  }

  /** What the sweep flags: an event that, in order of start, begins before an earlier one has ended, and that one. */
  ghost predicate Flagged(sorted: seq<Interval>, id: EventId) { PairedBefore(sorted, |sorted|, 0, id) }

  lemma FlaggedByPairs(sorted: seq<Interval>, id: EventId)
    ensures Flagged(sorted, id) <==> exists x, y :: PairIn(sorted, x, y) && StartsWithin(x, y) && Named(x, y, id)
  {
    if Flagged(sorted, id) {
      var a, b :| 0 <= a < b < |sorted| && StartsWithin(sorted[a], sorted[b]) && (sorted[a].id == id || sorted[b].id == id);
      assert PairIn(sorted, sorted[a], sorted[b]) && Named(sorted[a], sorted[b], id);
    }
    if exists x, y :: PairIn(sorted, x, y) && StartsWithin(x, y) && Named(x, y, id) {
      var x, y :| PairIn(sorted, x, y) && StartsWithin(x, y) && Named(x, y, id);
      var a, b :| 0 <= a < b < |sorted| && sorted[a] == x && sorted[b] == y;
      assert StartsWithin(sorted[a], sorted[b]);
    }
  }

  /** For every list: what the sweep of the sorted list flags is pairwise overlap, and whatever a
      misleading pair names. */
  lemma FlaggedExactly(events: seq<Interval>, id: EventId)
    ensures Flagged(SortByStart(events), id) <==> InConflict(events, id) || Misled(events, id)
  {
    hide Flagged, InConflict, SortByStart, InputPair, PairIn;
    var sorted := SortByStart(events);
    FlaggedByPairs(sorted, id);
    ConflictByPairs(events, id);
    forall x, y ensures PairIn(sorted, x, y) <==> InputPair(events, x, y) { SortPairs(events, x, y); }
    forall x, y | InputPair(events, x, y) ensures StartsWithin(x, y) <==> Overlap(x, y) || Misleads(x, y) { PairOrder(events, x, y); }
  }

  lemma PairOrder(events: seq<Interval>, x: Interval, y: Interval)
    requires InputPair(events, x, y)
    ensures x.start <= y.start && y in events
  {
  }

  /** A list of events that all end after they start misleads about nothing. */
  lemma ProperIsNotMisled(events: seq<Interval>, id: EventId)
    requires Proper(events)
    ensures !Misled(events, id)
  {
    forall x, y | InputPair(events, x, y) ensures !Misleads(x, y) { PairOrder(events, x, y); }
  }

  /** An event without length is flagged when it is listed after one that starts with it, and not
      when it is listed before: neither overlaps the other. */
  lemma ZeroLengthDependsOnOrder()
    ensures var (long, point) := (Interval(1, 3, 9), Interval(2, 3, 3));
            && !InConflict([long, point], 2) && Misled([long, point], 2) && Flagged(SortByStart([long, point]), 2)
            && !InConflict([point, long], 2) && !Misled([point, long], 2) && !Flagged(SortByStart([point, long]), 2)
  {
    var (long, point) := (Interval(1, 3, 9), Interval(2, 3, 3));
    var (x, y) := ([long, point], [point, long]);
    assert x[0] == long && x[1] == point && y[0] == point && y[1] == long;
    assert InputPair(x, long, point) && Misleads(long, point) && Named(long, point, 2);
    forall a, b | InputPair(y, a, b) ensures !Misleads(a, b) {}
    FlaggedExactly(x, 2);
    FlaggedExactly(y, 2);
  }

  /** An event that runs backwards is flagged although it overlaps nothing. */
  lemma ReversedEventIsFlagged()
    ensures var events := [Interval(1, 3, 9), Interval(2, 5, 2)];
            !InConflict(events, 2) && Misled(events, 2) && Flagged(SortByStart(events), 2)
  {
    var (x, y) := (Interval(1, 3, 9), Interval(2, 5, 2));
    var events := [x, y];
    assert events[0] == x && events[1] == y;
    assert InputPair(events, x, y) && Misleads(x, y) && Named(x, y, 2);
    FlaggedExactly(events, 2);
  }

  /** The nested loops: stop the inner one at the first event that starts after this one ends. */
  method Sweep(sorted: seq<Interval>) returns (conflicts: set<EventId>)
    requires SortedByStart(sorted)
    ensures forall id :: id in conflicts <==> Flagged(sorted, id)
  {
    conflicts := {};
    var i := 0;
    while i < |sorted|
      invariant 0 <= i <= |sorted|
      invariant forall id :: id in conflicts <==> PairedBefore(sorted, i, 0, id)
    {
      var a := sorted[i];
      var j := i + 1;
      while j < |sorted|
        invariant i < j <= |sorted|
        invariant forall id :: id in conflicts <==> PairedBefore(sorted, i, j, id)
        decreases |sorted| - j
      {
        var b := sorted[j];
        if b.start >= a.end {
          NothingFurther(sorted, i, j);
          break;
        }
        conflicts := conflicts + {a.id, b.id};
        forall id ensures PairedBefore(sorted, i, j + 1, id) <==> PairedBefore(sorted, i, j, id) || id == a.id || id == b.id {
          OneMorePair(sorted, i, j, id);
        }
        j := j + 1;
      }
      i := i + 1;
    }
  }

  lemma OneMorePair(sorted: seq<Interval>, i: nat, j: nat, id: EventId)
    requires i < j < |sorted| && StartsWithin(sorted[i], sorted[j])
    ensures PairedBefore(sorted, i, j + 1, id) <==> PairedBefore(sorted, i, j, id) || id == sorted[i].id || id == sorted[j].id
  {
    if PairedBefore(sorted, i, j, id) {
      var a, b :| 0 <= a < b < |sorted| && (a < i || (a == i && b < j)) && StartsWithin(sorted[a], sorted[b])
                  && (sorted[a].id == id || sorted[b].id == id);
      assert a < i || (a == i && b < j + 1);
    }
  }

  // ---------------------------------------------------------------- the two connectors

  /** What the Google connector sweeps: events with both times. */
  predicate EligibleForGoogle(e: CalendarEvent) { e.start.Some? && e.end.Some? }

  /** What the Outlook connector sweeps: also not cancelled; times that do not parse are absent. */
  predicate EligibleForOutlook(e: CalendarEvent) { !e.cancelled && e.start.Some? && e.end.Some? }

  /** The intervals of the eligible events, in order. */
  function Eligible(events: seq<CalendarEvent>, outlook: bool): seq<Interval> {
    if events == [] then []
    else
      var e := events[|events| - 1];
      Eligible(events[..|events| - 1], outlook)
      + (if (if outlook then EligibleForOutlook(e) else EligibleForGoogle(e)) then [Interval(e.id, e.start.value, e.end.value)] else [])
  }

  /** The filter of `detectConflicts`. */
  method WithTimes(events: seq<CalendarEvent>, outlook: bool) returns (withTimes: seq<Interval>)
    ensures withTimes == Eligible(events, outlook)
  {
    withTimes := [];
    for i := 0 to |events|
      invariant withTimes == Eligible(events[..i], outlook)
    {
      assert events[..i + 1][..i] == events[..i];
      var e := events[i];
      if (!outlook || !e.cancelled) && e.start.Some? && e.end.Some? {
        withTimes := withTimes + [Interval(e.id, e.start.value, e.end.value)];
      }
    }
    assert events[..|events|] == events;
  }

  /** `detectConflicts`, for every list of events: the ids of the eligible events that overlap some
      other eligible event, and the ids a misleading pair names. Without an eligible event that ends
      at or before its own start, that is exactly pairwise overlap. */
  method DetectConflicts(events: seq<CalendarEvent>, outlook: bool) returns (conflicts: set<EventId>)
    ensures var eligible := Eligible(events, outlook);
            && (forall id :: id in conflicts <==> InConflict(eligible, id) || Misled(eligible, id))
            && (Proper(eligible) ==> forall id :: id in conflicts <==> InConflict(eligible, id))
  {
    hide InConflict, Flagged, SortByStart, Proper, Eligible, SortedByStart, Misled;
    var withTimes := WithTimes(events, outlook);
    var sorted := Sort(withTimes);
    SortSorted(withTimes);
    conflicts := Sweep(sorted);
    forall id ensures id in conflicts <==> InConflict(withTimes, id) || Misled(withTimes, id) { FlaggedExactly(withTimes, id); }
    if Proper(withTimes) {
      forall id ensures !Misled(withTimes, id) { ProperIsNotMisled(withTimes, id); }
    }
  }

  /** Exactly when the answer of `DetectConflicts` is pairwise overlap: every id a misleading pair names overlaps
      something all the same. The guard is on the input alone. */
  lemma AgreesWithOverlapExactlyWhen(events: seq<CalendarEvent>, outlook: bool, conflicts: set<EventId>)
    requires forall id :: id in conflicts <==> InConflict(Eligible(events, outlook), id) || Misled(Eligible(events, outlook), id)
    ensures var eligible := Eligible(events, outlook);
            (forall id :: id in conflicts <==> InConflict(eligible, id))
            <==> forall x, y | InputPair(eligible, x, y) && Misleads(x, y) :: InConflict(eligible, x.id) && InConflict(eligible, y.id)
  {
    hide InConflict, Eligible, InputPair;
    var eligible := Eligible(events, outlook);
    if forall id :: id in conflicts <==> InConflict(eligible, id) {
      forall x, y | InputPair(eligible, x, y) && Misleads(x, y) ensures InConflict(eligible, x.id) && InConflict(eligible, y.id) {
        assert Named(x, y, x.id) && Named(x, y, y.id);
        assert Misled(eligible, x.id) && Misled(eligible, y.id);
        assert x.id in conflicts && y.id in conflicts;
      }
    }
  }

  /** The swept intervals are those of the events with both times, for Outlook of those not cancelled. */
  lemma {:induction false} EligibleIs(events: seq<CalendarEvent>, outlook: bool, v: Interval)
    ensures v in Eligible(events, outlook) <==>
              exists e :: e in events && e.start.Some? && e.end.Some? && (outlook ==> !e.cancelled)
                          && v == Interval(e.id, e.start.value, e.end.value)
  {
    if events != [] {
      var (rest, last) := (events[..|events| - 1], events[|events| - 1]);
      EligibleIs(rest, outlook, v);
      assert events == rest + [last];
      assert forall e :: e in events <==> e in rest || e == last;
    }
  }
}
