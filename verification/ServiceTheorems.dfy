/** What the service manager promises over every run. */
module ServiceTheorems {
  import opened Identifiers
  import opened ServiceSupervision
  import opened ServiceSafety

  // ---------------------------------------------------------------- single children

  predicate Alive(p: Procs, c: Child) { c in p.forked && c !in p.exited }

  /** Every living child of a role is the one its handle names, so at most one of each lives. */
  lemma AtMostOneOfEach(packaged: bool, states: seq<Services>, events: seq<Event>, i: nat, c: Child, d: Child)
    requires IsRun(packaged, states, events) && i < |states|
    requires Alive(states[i].procs, c) && Alive(states[i].procs, d)
    ensures Handle(states[i].procs, states[i].procs.forked[c].role) == Some(c)
    ensures states[i].procs.forked[c].role == states[i].procs.forked[d].role ==> c == d
  {
    hide IsRun, GenInv, StartInv, FlowInv;
    RunKeeps(packaged, states, events, i);
  }

  // ---------------------------------------------------------------- generations

  /** The ready generation is the current one; the current one owns the API handle, and its child
      is not being terminated. Every other generation has been revoked. */
  lemma ReadyIsCurrent(packaged: bool, states: seq<Services>, events: seq<Event>, i: nat)
    requires IsRun(packaged, states, events) && i < |states|
    ensures var (p, g) := (states[i].procs, states[i].gens);
            && (g.ready == None || g.ready == g.current)
            && (g.current.Some? ==> g.current.value in g.children && g.current.value !in g.revoked
                                    && p.api == Some(g.children[g.current.value]) && p.api.value !in p.terminating)
            && (forall n | n in g.children :: g.current == Some(n) || n in g.revoked)
  {
    hide IsRun, ProcInv, StartInv, FlowInv;
    RunKeeps(packaged, states, events, i);
  }

  /** A revoked generation stays revoked; it is never current, nor ready, again. */
  lemma {:induction false} RevokedForGood(packaged: bool, states: seq<Services>, events: seq<Event>, i: nat, j: nat, n: Generation)
    requires IsRun(packaged, states, events) && i <= j < |states| && n in states[i].gens.revoked
    ensures n in states[j].gens.revoked && states[j].gens.current != Some(n) && states[j].gens.ready != Some(n)
    ensures !IsCurrent(states[j].procs, states[j].gens, n)
  {
    hide IsRun, Inv, CanHappen, Apply;
    if i < j {
      RunLength(packaged, states, events);
      RevokedForGood(packaged, states, events, i, j - 1, n);
      RunStep(packaged, states, events, j - 1);
      RevocationStays(states[j - 1], events[j - 1]);
    }
    RunKeeps(packaged, states, events, j);
    RevokedIsNotCurrent(states[j], n);
  }

  lemma RunLength(packaged: bool, states: seq<Services>, events: seq<Event>)
    requires IsRun(packaged, states, events)
    ensures |states| == |events| + 1
  {
    hide CanHappen, Apply;
  }

  lemma RevokedIsNotCurrent(s: Services, n: Generation)
    requires Inv(s) && n in s.gens.revoked
    ensures s.gens.current != Some(n) && s.gens.ready != Some(n) && !IsCurrent(s.procs, s.gens, n)
  {
    hide ProcInv, StartInv, FlowInv;
  }

  lemma RevocationStays(s: Services, e: Event)
    requires CanHappen(s, e)
    ensures s.gens.revoked <= Apply(s, e).gens.revoked
  {
    hide StartWorker, GenerationServes, IsCurrent, Settle;
    match e
    case OnCall(c) => CallRevocations(s, c);
    case OnStart(c) => StartRevocations(s, c);
    case OnStop(c) => StopRevocations(s, c);
  }

  lemma CallRevocations(s: Services, e: CallEvent)
    requires CallEnabled(s, e)
    ensures s.gens.revoked <= CallApply(s, e).gens.revoked
  {
    hide GenerationServes, IsCurrent;
  }

  lemma StartRevocations(s: Services, e: StartEvent)
    requires StartEnabled(s, e)
    ensures s.gens.revoked <= StartApply(s, e).gens.revoked
  {
    hide GenerationServes, IsCurrent;
  }

  lemma StopRevocations(s: Services, e: StopEvent)
    requires StopEnabled(s, e)
    ensures s.gens.revoked <= StopApply(s, e).gens.revoked
  {
    hide Settle;
  }

  /** Stopping the services of a generation terminates only children forked for it. */
  lemma StopForStopsOnlyItsOwn(packaged: bool, states: seq<Services>, events: seq<Event>, i: nat, n: Generation, c: Child)
    requires IsRun(packaged, states, events) && i < |events| && events[i] == OnStop(StopsFor(n))
    requires c in states[i + 1].procs.terminating && c !in states[i].procs.terminating
    ensures c in states[i].procs.forked && states[i].procs.forked[c].generation == Some(n)
  {
    hide IsRun, Inv;
    RunStep(packaged, states, events, i);
    RunKeeps(packaged, states, events, i);
    StopsOwn(states[i], n, c);
  }

  lemma StopsOwn(s: Services, n: Generation, c: Child)
    requires Inv(s) && n in s.gens.children
    requires c in StopForGeneration(s, n).procs.terminating && c !in s.procs.terminating
    ensures c in s.procs.forked && s.procs.forked[c].generation == Some(n)
  {
    hide StartInv, FlowInv;
    assert Held(s.procs, Worker);
  }

  /** So the recovery of an old generation leaves its successor alone: nothing of a later
      generation is revoked or terminated by it. */
  lemma OldRecoverySparesSuccessor(packaged: bool, states: seq<Services>, events: seq<Event>, i: nat, former: Generation, n: Generation)
    requires IsRun(packaged, states, events) && i < |events| && events[i] == OnStop(StopsFor(former))
    requires states[i].gens.current == Some(n) && n != former
    ensures states[i + 1].gens == states[i].gens
    ensures states[i + 1].procs.api == states[i].procs.api && states[i + 1].procs.api.Some?
    ensures states[i + 1].procs.api.value !in states[i + 1].procs.terminating
    ensures states[i].gens.worker == Some(n) ==> states[i + 1].procs == states[i].procs
  {
    hide IsRun, Inv;
    RunStep(packaged, states, events, i);
    RunKeeps(packaged, states, events, i);
    Spares(states[i], former, n);
  }

  lemma Spares(s: Services, former: Generation, n: Generation)
    requires Inv(s) && former in s.gens.children && s.gens.current == Some(n) && n != former
    ensures var t := StopForGeneration(s, former);
            && t.gens == s.gens && t.procs.api == s.procs.api && t.procs.api.Some? && t.procs.api.value !in t.procs.terminating
            && (s.gens.worker == Some(n) ==> t.procs == s.procs)
  {
    hide StartInv, FlowInv;
    assert Held(s.procs, Worker) && Held(s.procs, Api);
    assert n in s.gens.children && former in s.gens.children;
    assert s.procs.forked[s.gens.children[n]] == Fork(Api, Some(n));
    assert s.procs.forked[s.gens.children[former]] == Fork(Api, Some(former));
  }

  // ---------------------------------------------------------------- pause

  /** Paused at an epoch no queued or running resume has seen, and no `startAll` waiting. */
  ghost predicate Quiet(f: Flow, epoch: nat) {
    && f.paused && epoch <= f.epoch && StartAll !in f.queue
    && (forall e: nat | Resume(e) in f.queue :: e < epoch)
    && (f.running.Some? && f.running.value.job.Resume? ==> f.running.value.job.epoch < epoch)
  }

  predicate CallsForWork(e: Event) { e == OnCall(CallsStartAll) || e == OnCall(CallsResume) }

  lemma PauseQuiets(s: Services)
    requires Inv(s) && StartAll !in s.flow.queue
    ensures Quiet(CallPause(s).flow, s.flow.epoch + 1)
  {
    hide ProcInv, GenInv, StartInv;
  }

  lemma QuietStays(s: Services, e: Event, epoch: nat)
    requires CanHappen(s, e) && Quiet(s.flow, epoch) && !CallsForWork(e)
    ensures Quiet(Apply(s, e).flow, epoch)
    ensures forall c | c in Apply(s, e).procs.forked && Apply(s, e).procs.forked[c].role == Worker :: c in s.procs.forked
  {
    hide IsCurrent, IsReady, GenerationServes;
    match e
    case OnCall(c) => QuietCalls(s, c, epoch);
    case OnStart(c) => QuietStarts(s, c, epoch);
    case OnStop(c) =>
  }

  lemma QuietCalls(s: Services, e: CallEvent, epoch: nat)
    requires CallEnabled(s, e) && Quiet(s.flow, epoch) && e != CallsStartAll && e != CallsResume
    ensures Quiet(CallApply(s, e).flow, epoch) && CallApply(s, e).procs.forked == s.procs.forked
  {
    hide GenerationServes;
    if e.Begins? { assert s.flow.queue[0] in s.flow.queue; }
  }

  lemma QuietStarts(s: Services, e: StartEvent, epoch: nat)
    requires StartEnabled(s, e) && Quiet(s.flow, epoch)
    ensures Quiet(StartApply(s, e).flow, epoch)
    ensures forall c | c in StartApply(s, e).procs.forked && StartApply(s, e).procs.forked[c].role == Worker :: c in s.procs.forked
  {
    hide IsCurrent, IsReady, GenerationServes;
  }

  /** `pause` is called at step `i` with no `startAll` waiting, and nothing asks for work up to step `j`. */
  ghost predicate PausedFrom(packaged: bool, states: seq<Services>, events: seq<Event>, i: nat, j: nat) {
    && IsRun(packaged, states, events) && i < j < |states|
    && events[i] == OnCall(CallsPause) && StartAll !in states[i].flow.queue
    && forall m | i < m < j :: !CallsForWork(events[m])
  }

  lemma {:induction false} PauseHolds(packaged: bool, states: seq<Services>, events: seq<Event>, i: nat, j: nat)
    requires PausedFrom(packaged, states, events, i, j)
    ensures Quiet(states[j].flow, states[i].flow.epoch + 1)
    decreases j
  {
    hide IsRun, Inv, CanHappen, Apply, Quiet;
    RunLength(packaged, states, events);
    RunStep(packaged, states, events, j - 1);
    if j == i + 1 {
      RunKeeps(packaged, states, events, i);
      PauseQuiets(states[i]);
      PauseIs(states[i]);
    } else {
      PauseHolds(packaged, states, events, i, j - 1);
      QuietStays(states[j - 1], events[j - 1], states[i].flow.epoch + 1);
    }
  }

  lemma PauseIs(s: Services)
    ensures CanHappen(s, OnCall(CallsPause)) && Apply(s, OnCall(CallsPause)) == CallPause(s)
  {
  }

  /** After `pause` is called nothing is unpaused and no worker is forked until a `startAll` or a
      `resume` is called later than it. */
  lemma NoForkAfterPause(packaged: bool, states: seq<Services>, events: seq<Event>, i: nat, j: nat, c: Child)
    requires PausedFrom(packaged, states, events, i, j) && j < |events| && !CallsForWork(events[j])
    requires c in states[j + 1].procs.forked && states[j + 1].procs.forked[c].role == Worker
    ensures states[j].flow.paused && states[j + 1].flow.paused && c in states[j].procs.forked
  {
    hide IsRun, CanHappen, Apply;
    PauseHolds(packaged, states, events, i, j);
    RunStep(packaged, states, events, j);
    QuietStays(states[j], events[j], states[i].flow.epoch + 1);
  }

  /** This pause has not returned yet; once it may, no worker is held. */
  ghost predicate PauseWorks(s: Services, q: int) {
    q < s.flow.nextPause && (q in s.flow.pauses && s.flow.pauses[q] == PauseSettled(true) ==> s.procs.worker == None)
  }

  lemma PauseWorksStays(s: Services, e: Event, q: int)
    requires Inv(s) && CanHappen(s, e) && s.flow.paused && PauseWorks(s, q)
    ensures PauseWorks(Apply(s, e), q)
  {
    hide ProcInv, GenInv, FlowInv, IsCurrent, IsReady, GenerationServes, Revoke;
    match e
    case OnCall(c) => PauseWorksCalls(s, c, q);
    case OnStart(c) => PauseWorksStarts(s, c, q);
    case OnStop(c) => PauseWorksStops(s, c, q);
  }

  lemma PauseWorksCalls(s: Services, e: CallEvent, q: int)
    requires CallEnabled(s, e) && PauseWorks(s, q)
    ensures PauseWorks(CallApply(s, e), q)
  {
    hide GenerationServes, Revoke;
  }

  lemma PauseWorksStarts(s: Services, e: StartEvent, q: int)
    requires StartEnabled(s, e) && s.flow.paused && PauseWorks(s, q)
    ensures PauseWorks(StartApply(s, e), q)
  {
    hide IsCurrent, IsReady, GenerationServes, Revoke;
  }

  lemma PauseWorksStops(s: Services, e: StopEvent, q: int)
    requires StartInv(s.procs, s.flow) && StopEnabled(s, e) && PauseWorks(s, q)
    ensures PauseWorks(StopApply(s, e), q)
  {
    hide Revoke, GoodStart;
    if e.Terminates? && q in s.flow.pauses && s.flow.pauses[q] == PauseWaits(e.child) {
      assert s.procs.worker == Some(e.child);
    }
  }

  lemma {:induction false} PauseWorksThroughout(packaged: bool, states: seq<Services>, events: seq<Event>, i: nat, j: nat)
    requires PausedFrom(packaged, states, events, i, j)
    ensures PauseWorks(states[j], states[i].flow.nextPause)
    decreases j
  {
    hide IsRun, Inv, CanHappen, Apply, Quiet, PauseWorks;
    RunLength(packaged, states, events);
    RunStep(packaged, states, events, j - 1);
    if j == i + 1 {
      PauseIs(states[i]);
      PauseBegins(states[i]);
    } else {
      PauseWorksThroughout(packaged, states, events, i, j - 1);
      PauseHolds(packaged, states, events, i, j - 1);
      QuietIsPaused(states[j - 1].flow, states[i].flow.epoch + 1);
      RunKeeps(packaged, states, events, j - 1);
      PauseWorksStays(states[j - 1], events[j - 1], states[i].flow.nextPause);
    }
  }

  lemma QuietIsPaused(f: Flow, epoch: nat)
    requires Quiet(f, epoch)
    ensures f.paused
  {
  }

  lemma PauseBegins(s: Services)
    ensures PauseWorks(CallPause(s), s.flow.nextPause)
  {
  }

  /** If that `pause` returns normally, no worker child is alive. */
  lemma PauseReturnsWithoutWorker(packaged: bool, states: seq<Services>, events: seq<Event>, i: nat, j: nat, c: Child)
    requires PausedFrom(packaged, states, events, i, j) && j < |events|
    requires events[j] == OnCall(PauseReturns(states[i].flow.nextPause))
    requires Alive(states[j].procs, c)
    ensures states[j].procs.forked[c].role == Api && states[j].procs.worker == None
  {
    hide IsRun, GenInv, StartInv, FlowInv, Apply;
    PauseWorksThroughout(packaged, states, events, i, j);
    RunStep(packaged, states, events, j);
    RunKeeps(packaged, states, events, j);
  }

  /** Without that proviso the claim fails: a `startAll` that was waiting undoes the pause. */
  lemma WaitingStartAllUndoesPause()
    ensures exists states: seq<Services>, events: seq<Event> ::
              IsRun(false, states, events) && |events| == 3 && events[1] == OnCall(CallsPause)
              && events[2] == OnCall(Begins(false)) && !states[3].flow.paused
  {
    var events := [OnCall(CallsStartAll), OnCall(CallsPause), OnCall(Begins(false))];
    var s0 := Empty(false);
    var s1 := Apply(s0, events[0]);
    var s2 := Apply(s1, events[1]);
    var s3 := Apply(s2, events[2]);
    assert IsRun(false, [s0, s1, s2, s3], events);
  }

  lemma RunExtends(packaged: bool, states: seq<Services>, events: seq<Event>, e: Event)
    requires IsRun(packaged, states, events) && CanHappen(states[|events|], e)
    ensures IsRun(packaged, states + [Apply(states[|events|], e)], events + [e])
  {
    hide Apply, CanHappen;
    var (more, steps) := (states + [Apply(states[|events|], e)], events + [e]);
    forall i | 0 <= i < |steps| ensures CanHappen(more[i], steps[i]) && more[i + 1] == Apply(more[i], steps[i]) {
      if i < |events| { assert more[i] == states[i] && more[i + 1] == states[i + 1] && steps[i] == events[i]; }
    }
  }

  /** A run to a living worker. */
  lemma SomeWorkerRuns() returns (states: seq<Services>, events: seq<Event>)
    ensures IsRun(false, states, events)
    ensures var s := states[|events|];
            s.procs.worker == Some(0) && 0 in s.procs.forked && 0 !in s.procs.exited && s.procs.terminating == {}
            && s.flow.queue == [] && s.flow.pauses == map[] && s.flow.nextPause == 0 && s.flow.running == None
            && s.flow.starting.Some? && s.flow.starting.value.Offering?
  {
    hide IsRun;
    var s0 := Empty(false);
    states, events := [s0], [];
    assert IsRun(false, states, events) by { StartIsRun(); }
    RunExtends(false, states, events, OnStart(StartsWorker(None, true)));
    var s1 := Apply(s0, OnStart(StartsWorker(None, true)));
    states, events := states + [s1], events + [OnStart(StartsWorker(None, true))];
    RunExtends(false, states, events, OnStart(Registers(true)));
    var s2 := Apply(s1, OnStart(Registers(true)));
    states, events := states + [s2], events + [OnStart(Registers(true))];
    RunExtends(false, states, events, OnStart(ForksWorker(true, true)));
    var s3 := Apply(s2, OnStart(ForksWorker(true, true)));
    states, events := states + [s3], events + [OnStart(ForksWorker(true, true))];
  }

  lemma StartIsRun()
    ensures IsRun(false, [Empty(false)], [])
  {
  }

  /** The claim is not empty: a living worker is paused, proven to have exited, and `pause` returns. */
  lemma SomePauseReturns()
    ensures exists states: seq<Services>, events: seq<Event>, i: nat, j: nat ::
              PausedFrom(false, states, events, i, j) && j < |events| && Alive(states[i].procs, 0)
              && events[j] == OnCall(PauseReturns(states[i].flow.nextPause))
  {
    hide IsRun;
    var states, events := SomeWorkerRuns();
    RunLength(false, states, events);
    var (i, s) := (|events|, states[|events|]);
    RunExtends(false, states, events, OnCall(CallsPause));
    var t := Apply(s, OnCall(CallsPause));
    states, events := states + [t], events + [OnCall(CallsPause)];
    RunExtends(false, states, events, OnStop(Exits(0)));
    var u := Apply(t, OnStop(Exits(0)));
    states, events := states + [u], events + [OnStop(Exits(0))];
    RunExtends(false, states, events, OnStop(Terminates(0)));
    var v := Apply(u, OnStop(Terminates(0)));
    states, events := states + [v], events + [OnStop(Terminates(0))];
    assert v.flow.pauses[0] == PauseSettled(true);
    RunExtends(false, states, events, OnCall(PauseReturns(0)));
    states, events := states + [Apply(v, OnCall(PauseReturns(0)))], events + [OnCall(PauseReturns(0))];
    assert states[i] == s && events[i] == OnCall(CallsPause) && events[i + 3] == OnCall(PauseReturns(0));
    assert PausedFrom(false, states, events, i, i + 3);
  }

  // ---------------------------------------------------------------- resume

  /** A resume superseded by a pause never ends with the manager unpaused. */
  lemma SupersededResumeEndsPaused(packaged: bool, states: seq<Services>, events: seq<Event>, j: nat)
    requires IsRun(packaged, states, events) && j < |events|
    requires states[j].flow.running.Some? && states[j].flow.running.value.job.Resume?
    requires states[j].flow.running.value.job.epoch != states[j].flow.epoch && states[j + 1].flow.running == None
    ensures states[j].flow.paused && states[j + 1].flow.paused
  {
    hide IsRun, Inv, CanHappen, Apply;
    RunStep(packaged, states, events, j);
    RunKeeps(packaged, states, events, j);
    EndsPaused(states[j], events[j]);
  }

  lemma EndsPaused(s: Services, e: Event)
    requires Inv(s) && CanHappen(s, e)
    requires s.flow.running.Some? && s.flow.running.value.job.Resume? && s.flow.running.value.job.epoch != s.flow.epoch
    requires Apply(s, e).flow.running == None
    ensures s.flow.paused && Apply(s, e).flow.paused
  {
    hide ProcInv, GenInv, StartInv, IsCurrent, IsReady, GenerationServes, Revoke;
  }

  /** When the turn of a superseded resume comes, it leaves the manager unpaused exactly when a worker
      child makes it refuse at once and the manager was unpaused before. */
  lemma SupersededResumeAtItsTurn(packaged: bool, states: seq<Services>, events: seq<Event>, j: nat, blocked: bool)
    requires IsRun(packaged, states, events) && j < |events| && events[j] == OnCall(Begins(blocked))
    requires states[j].flow.queue != [] && states[j].flow.queue[0].Resume? && states[j].flow.queue[0].epoch != states[j].flow.epoch
    ensures states[j + 1].flow.paused <==> states[j].flow.paused || states[j].procs.worker == None
    ensures states[j + 1].procs == states[j].procs && states[j + 1].gens == states[j].gens
  {
    hide IsRun;
    RunStep(packaged, states, events, j);
  }

  /** A resume that succeeds has not been superseded and leaves the manager unpaused; packaged, its
      worker is the one living worker, bound to the ready and current API generation, whose child is
      held and is not being terminated. */
  lemma ResumeSucceeds(packaged: bool, states: seq<Services>, events: seq<Event>, j: nat, n: Option<Generation>)
    requires IsRun(packaged, states, events) && j < |events| && events[j] == OnCall(Concludes(n))
    requires states[j + 1].flow.running == None
    ensures var (s, t) := (states[j], states[j + 1]);
            && s.flow.running.Some? && s.flow.running.value.job == Resume(s.flow.epoch)
            && !t.flow.paused && t.procs == s.procs && t.gens == s.gens
            && (packaged ==>
                  && n.Some? && t.gens.ready == n && IsCurrent(t.procs, t.gens, n.value)
                  && t.procs.api.Some? && t.procs.api.value !in t.procs.terminating
                  && t.procs.worker.Some? && Alive(t.procs, t.procs.worker.value) && t.gens.worker == n)
  {
    hide IsRun, Inv;
    RunStep(packaged, states, events, j);
    RunKeeps(packaged, states, events, j);
    PackagedStays(packaged, states, events, j);
    Concluded(states[j], n);
  }

  lemma Concluded(s: Services, n: Option<Generation>)
    requires Inv(s) && CallEnabled(s, Concludes(n)) && Conclude(s, n).flow.running == None
    ensures s.flow.running.Some? && s.flow.running.value.job == Resume(s.flow.epoch) && !s.flow.paused
    ensures var t := Conclude(s, n);
            && t.flow.paused == s.flow.paused && t.procs == s.procs && t.gens == s.gens
            && (s.flow.packaged ==>
                  && n.Some? && t.gens.ready == n && IsCurrent(t.procs, t.gens, n.value)
                  && t.procs.api.Some? && t.procs.api.value !in t.procs.terminating
                  && t.procs.worker.Some? && Alive(t.procs, t.procs.worker.value) && t.gens.worker == n)
  {
    hide StartInv;
    assert Held(s.procs, Worker);
    if s.flow.packaged { SomeValue(n, n.value); }
  }

  lemma {:induction false} PackagedStays(packaged: bool, states: seq<Services>, events: seq<Event>, i: nat)
    requires IsRun(packaged, states, events) && i < |states|
    ensures states[i].flow.packaged == packaged
  {
    if i > 0 {
      hide IsRun;
      RunLength(packaged, states, events);
      PackagedStays(packaged, states, events, i - 1);
      RunStep(packaged, states, events, i - 1);
      StepKeepsPackaged(states[i - 1], events[i - 1]);
    }
  }

  lemma StepKeepsPackaged(s: Services, e: Event)
    requires CanHappen(s, e)
    ensures Apply(s, e).flow.packaged == s.flow.packaged
  {
    hide IsCurrent, IsReady, GenerationServes, Revoke, CallApply, StartApply, StopApply;
    match e
    case OnCall(c) => CallKeepsPackaged(s, c);
    case OnStart(c) => StartKeepsPackaged(s, c);
    case OnStop(c) => StopKeepsPackaged(s, c);
  }

  lemma CallKeepsPackaged(s: Services, e: CallEvent)
    requires CallEnabled(s, e)
    ensures CallApply(s, e).flow.packaged == s.flow.packaged
  {
    hide GenerationServes, Revoke;
  }

  lemma StartKeepsPackaged(s: Services, e: StartEvent)
    requires StartEnabled(s, e)
    ensures StartApply(s, e).flow.packaged == s.flow.packaged
  {
    hide IsCurrent, GenerationServes, Revoke;
  }

  lemma StopKeepsPackaged(s: Services, e: StopEvent)
    requires StopEnabled(s, e)
    ensures StopApply(s, e).flow.packaged == s.flow.packaged
  {
    hide Revoke;
  }
}
