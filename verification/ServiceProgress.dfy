/** What can still happen: every section can end, every child can be got rid of, and so a pause can be
    undone without asking for work again exactly when a `startAll` is waiting. */
module ServiceProgress {
  import opened Identifiers
  import opened ServiceSupervision
  import opened ServiceSafety
  import opened ServiceTheorems

  // ---------------------------------------------------------------- continuations

  /** The events lead from one state to another. */
  ghost predicate Leads(s: Services, events: seq<Event>, t: Services)
    decreases |events|
  {
    if events == [] then s == t else CanHappen(s, events[0]) && Leads(Apply(s, events[0]), events[1..], t)
  }

  /** None of them asks for work. */
  ghost predicate AsksNothing(events: seq<Event>) { forall e | e in events :: !CallsForWork(e) }

  /** Some continuation that asks for no work leads there. */
  ghost predicate Quietly(s: Services, t: Services) {
    exists events: seq<Event> :: Leads(s, events, t) && AsksNothing(events)
  }

  lemma QuietlySame(s: Services)
    ensures Quietly(s, s)
  {
    var events: seq<Event> := [];
    assert Leads(s, events, s) && AsksNothing(events);
  }

  lemma QuietlyStep(s: Services, e: Event, t: Services)
    requires CanHappen(s, e) && !CallsForWork(e) && Quietly(Apply(s, e), t)
    ensures Quietly(s, t)
  {
    hide CanHappen, Apply;
    var events :| Leads(Apply(s, e), events, t) && AsksNothing(events);
    var more := [e] + events;
    assert more[1..] == events;
    assert Leads(s, more, t) && AsksNothing(more);
  }

  lemma {:induction false} LeadsOn(s: Services, first: seq<Event>, t: Services, second: seq<Event>, u: Services)
    requires Leads(s, first, t) && Leads(t, second, u)
    ensures Leads(s, first + second, u)
    decreases |first|
  {
    hide CanHappen, Apply;
    if first == [] {
      assert first + second == second;
    } else {
      LeadsOn(Apply(s, first[0]), first[1..], t, second, u);
      assert (first + second)[1..] == first[1..] + second && (first + second)[0] == first[0];
    }
  }

  lemma QuietlyTwice(s: Services, t: Services, u: Services)
    requires Quietly(s, t) && Quietly(t, u)
    ensures Quietly(s, u)
  {
    hide Leads;
    var first :| Leads(s, first, t) && AsksNothing(first);
    var second :| Leads(t, second, u) && AsksNothing(second);
    LeadsOn(s, first, t, second, u);
    assert AsksNothing(first + second);
  }

  lemma QuietlyThen(s: Services, t: Services, e: Event)
    requires Quietly(s, t) && CanHappen(t, e) && !CallsForWork(e)
    ensures Quietly(s, Apply(t, e))
  {
    hide CanHappen, Apply, Quietly;
    QuietlySame(Apply(t, e));
    QuietlyStep(t, e, Apply(t, e));
    QuietlyTwice(s, t, Apply(t, e));
  }

  // ---------------------------------------------------------------- sections end

  /** A step of a continuation that keeps the invariant and the queue. */
  ghost predicate Onward(s: Services, t: Services) { Quietly(s, t) && Inv(t) && t.flow.queue == s.flow.queue }

  lemma OnwardStep(s: Services, t: Services, e: Event)
    requires Onward(s, t) && CanHappen(t, e) && !CallsForWork(e) && Apply(t, e).flow.queue == t.flow.queue
    ensures Onward(s, Apply(t, e))
  {
    hide CanHappen, Apply, Quietly, Inv;
    QuietlyThen(s, t, e);
    Step(t, e);
  }

  lemma OnwardTwice(s: Services, t: Services, u: Services)
    requires Onward(s, t) && Onward(t, u)
    ensures Onward(s, u)
  {
    hide Quietly, Inv;
    QuietlyTwice(s, t, u);
  }

  lemma OnwardSame(s: Services)
    requires Inv(s)
    ensures Onward(s, s)
  {
    hide Quietly, Inv;
    QuietlySame(s);
  }

  /** A child under termination exits, and the termination ends. */
  lemma Terminated(s: Services, c: Child) returns (t: Services)
    requires Inv(s) && c in s.procs.terminating
    ensures Onward(s, t) && t == Apply(Apply(s, OnStop(Exits(c))), OnStop(Terminates(c)))
  {
    hide Onward, Inv;
    TerminatingIsForked(s, c);
    OnwardSame(s);
    OnwardStep(s, s, OnStop(Exits(c)));
    var m := Apply(s, OnStop(Exits(c)));
    OnwardStep(s, m, OnStop(Terminates(c)));
    t := Apply(m, OnStop(Terminates(c)));
  }

  lemma TerminatingIsForked(s: Services, c: Child)
    requires Inv(s) && c in s.procs.terminating
    ensures c in s.procs.forked
  {
  }

  lemma StartFacts(s: Services)
    requires Inv(s) && s.flow.running.Some?
    ensures GoodStart(s.procs, s.flow.running.value.start)
    ensures s.flow.running.value.phase == Preparing || s.flow.running.value.phase == Enabled ==> s.flow.running.value.job.Resume?
  {
  }

  /** Whatever `startApi` is doing, it can come to an end. */
  lemma StartEnds(s: Services) returns (t: Services)
    requires Inv(s) && s.flow.running.Some?
    ensures Onward(s, t) && t.flow.running == Some(s.flow.running.value.(start := NoStart))
  {
    hide Onward, Inv, GoodStart, TerminationEnds, IsCurrent;
    var start := s.flow.running.value.start;
    OnwardSame(s);
    match start
    case NoStart => t := s;
    case StoppingOld(c) => t := OldGoes(s, c);
    case OldStopped(ok) => t := OldGone(s, ok);
    case Detecting => t := DetectionEnds(s);
    case Resolving =>
      OnwardStep(s, s, OnStart(ForksApi(false, false)));
      t := Apply(s, OnStart(ForksApi(false, false)));
    case Attaching(c, n) =>
      OnwardStep(s, s, OnStart(AttachesApi(true, true)));
      var m := Apply(s, OnStart(AttachesApi(true, true)));
      if m.flow.running.value.start == NoStart { t := m; } else {
        KeptAlong(s, m);
        t := NewGoes(m, c, n);
        OnwardTwice(s, m, t);
      }
    case StoppingNew(c, n) => t := NewGoes(s, c, n);
  }

  lemma KeptAlong(s: Services, m: Services)
    requires Onward(s, m)
    ensures Inv(m)
  {
  }

  lemma DetectionEnds(s: Services) returns (t: Services)
    requires Inv(s) && s.flow.running.Some? && s.flow.running.value.start == Detecting
    ensures Onward(s, t) && t.flow.running == Some(s.flow.running.value.(start := NoStart))
  {
    hide Onward, Inv;
    OnwardSame(s);
    OnwardStep(s, s, OnStart(Detects(true, false)));
    t := Apply(s, OnStart(Detects(true, false)));
  }

  lemma OldGone(s: Services, ok: bool) returns (t: Services)
    requires Inv(s) && s.flow.running.Some? && s.flow.running.value.start == OldStopped(ok)
    ensures Onward(s, t) && t.flow.running == Some(s.flow.running.value.(start := NoStart))
  {
    hide Onward, Inv;
    OnwardSame(s);
    OnwardStep(s, s, OnStart(OldStops));
    t := Apply(s, OnStart(OldStops));
    if ok {
      KeptAlong(s, t);
      var u := DetectionEnds(t);
      OnwardTwice(s, t, u);
      t := u;
    }
  }

  lemma OldGoes(s: Services, c: Child) returns (t: Services)
    requires Inv(s) && s.flow.running.Some? && s.flow.running.value.start == StoppingOld(c)
    ensures Onward(s, t) && t.flow.running == Some(s.flow.running.value.(start := NoStart))
  {
    hide Onward, Inv;
    StartFacts(s);
    var m := Terminated(s, c);
    KeptAlong(s, m);
    t := OldGone(m, true);
    OnwardTwice(s, m, t);
  }

  lemma NewGoes(s: Services, c: Child, n: Generation) returns (t: Services)
    requires Inv(s) && s.flow.running.Some? && s.flow.running.value.start == StoppingNew(c, n)
    ensures Onward(s, t) && t.flow.running == Some(s.flow.running.value.(start := NoStart))
  {
    hide Onward, Inv;
    StartFacts(s);
    t := Terminated(s, c);
  }

  /** So every section can end. */
  lemma SectionEnds(s: Services) returns (t: Services)
    requires Inv(s) && s.flow.running.Some?
    ensures Onward(s, t) && t.flow.running == None
  {
    hide Onward, Inv;
    var m := StartEnds(s);
    KeptAlong(s, m);
    StartFacts(m);
    if m.flow.running.value.phase == Preparing || m.flow.running.value.phase == Enabled {
      OnwardStep(s, m, OnCall(Throws));
      m := Apply(m, OnCall(Throws));
    }
    OnwardStep(s, m, OnCall(Ends));
    t := Apply(m, OnCall(Ends));
  }

  // ---------------------------------------------------------------- children go

  /** Between sections both handles can be emptied. */
  lemma ChildrenGo(s: Services) returns (t: Services)
    requires Inv(s) && s.flow.running == None
    ensures Onward(s, t) && t.flow.running == None && t.procs.api == None && t.procs.worker == None
  {
    hide Onward, Inv;
    OnwardSame(s);
    OnwardStep(s, s, OnStop(StopsAll));
    var m := Apply(s, OnStop(StopsAll));
    KeptAlong(s, m);
    t := m;
    if m.procs.api.Some? {
      HandlesDiffer(m);
      t := Terminated(m, m.procs.api.value);
      SomeValue(m.procs.api, m.procs.api.value);
      OnwardTwice(s, m, t);
      KeptAlong(s, t);
    }
    if t.procs.worker.Some? {
      m := t;
      SomeValue(m.procs.worker, m.procs.worker.value);
      t := Terminated(m, m.procs.worker.value);
      OnwardTwice(s, m, t);
    }
  }

  lemma HandlesDiffer(s: Services)
    requires Inv(s)
    ensures s.procs.api.Some? && s.procs.worker.Some? ==> s.procs.api.value != s.procs.worker.value
  {
    hide GenInv, StartInv, FlowInv;
    assert Held(s.procs, Api) && Held(s.procs, Worker);
  }

  // ---------------------------------------------------------------- a pause undone

  /** Some continuation that asks for no work ends unpaused. */
  ghost predicate CanBeUndone(s: Services) { exists t :: Quietly(s, t) && !t.flow.paused }

  lemma UndoneLater(s: Services, t: Services)
    requires Quietly(s, t) && CanBeUndone(t)
    ensures CanBeUndone(s)
  {
    hide Quietly;
    var u :| Quietly(t, u) && !u.flow.paused;
    QuietlyTwice(s, t, u);
  }

  /** A waiting `startAll` can come to its turn, packaged or not. */
  lemma {:induction false} WaitingStartAllCanRun(s: Services)
    requires Inv(s) && StartAll in s.flow.queue
    ensures CanBeUndone(s)
    decreases |s.flow.queue|, s.flow.running.Some?
  {
    hide Quietly, Inv;
    if s.flow.running.Some? {
      var t := SectionEnds(s);
      WaitingStartAllCanRun(t);
      UndoneLater(s, t);
    } else {
      var m := ChildrenGo(s);
      var t := NextBegins(s, m);
      if s.flow.queue[0] != StartAll {
        assert s.flow.queue == [s.flow.queue[0]] + s.flow.queue[1..];
        WaitingStartAllCanRun(t);
        UndoneLater(s, t);
      }
    }
  }

  /** With no child in the way the next section begins, and a `startAll` unpauses. */
  lemma NextBegins(s: Services, m: Services) returns (t: Services)
    requires Onward(s, m) && s.flow.queue != [] && m.flow.running == None && m.procs.api == None && m.procs.worker == None
    ensures Quietly(s, t) && Inv(t) && t.flow.queue == s.flow.queue[1..]
    ensures s.flow.queue[0] == StartAll ==> !t.flow.paused
  {
    hide Quietly, Inv;
    QuietlyThen(s, m, OnCall(Begins(false)));
    Step(m, OnCall(Begins(false)));
    t := Apply(m, OnCall(Begins(false)));
  }

  lemma {:induction false} QuietAlong(s: Services, events: seq<Event>, t: Services, epoch: nat)
    requires Leads(s, events, t) && AsksNothing(events) && Quiet(s.flow, epoch)
    ensures Quiet(t.flow, epoch)
    decreases |events|
  {
    hide CanHappen, Apply, Quiet;
    if events != [] {
      assert events[0] in events;
      QuietStays(s, events[0], epoch);
      assert AsksNothing(events[1..]);
      QuietAlong(Apply(s, events[0]), events[1..], t, epoch);
    }
  }

  /** In every run, once `pause` has been called, some continuation without a later call for work ends
      unpaused if and only if a `startAll` was waiting when it was called: packaged or not, whatever
      is running, and whatever else waits. */
  lemma PauseUndoneExactlyWhen(packaged: bool, states: seq<Services>, events: seq<Event>, i: nat)
    requires IsRun(packaged, states, events) && i < |events| && events[i] == OnCall(CallsPause)
    ensures CanBeUndone(states[i + 1]) <==> StartAll in states[i].flow.queue
  {
    hide IsRun, Inv, Quietly;
    RunStep(packaged, states, events, i);
    var (s, t) := (states[i], states[i + 1]);
    RunKeeps(packaged, states, events, i);
    RunKeeps(packaged, states, events, i + 1);
    PauseIs(s);
    if StartAll in s.flow.queue {
      WaitingStartAllCanRun(t);
    } else {
      PauseQuiets(s);
      forall u | Quietly(t, u) ensures u.flow.paused { StaysPaused(t, u, s.flow.epoch + 1); }
    }
  }

  lemma StaysPaused(s: Services, t: Services, epoch: nat)
    requires Quietly(s, t) && Quiet(s.flow, epoch)
    ensures t.flow.paused
  {
    hide Leads;
    var events :| Leads(s, events, t) && AsksNothing(events);
    QuietAlong(s, events, t, epoch);
  }
}
