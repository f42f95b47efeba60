/** What single steps of the service manager mean for its children, its generations and its flow. */
module ServiceSteps {
  import opened Identifiers
  import opened ServiceSupervision
  import opened ServiceSafety
  import opened ServiceTheorems

  // ---------------------------------------------------------------- what the invariant means

  /** At most one child of each role lives, the one its handle names. */
  ghost predicate OneOfEach(p: Procs) { forall c | Alive(p, c) :: Handle(p, p.forked[c].role) == Some(c) }

  /** Ready is current; current is not revoked, owns the API handle, and its child is not being terminated. */
  ghost predicate GenerationsAgree(p: Procs, g: Gens) {
    && (g.ready == None || g.ready == g.current)
    && (g.current.Some? ==> g.current.value in g.children && g.current.value !in g.revoked
                            && p.api == Some(g.children[g.current.value]) && p.api.value !in p.terminating)
  }

  lemma InvMeans(s: Services)
    requires Inv(s)
    ensures OneOfEach(s.procs) && GenerationsAgree(s.procs, s.gens)
  {
    hide StartInv, FlowInv;
  }

  /** A living child of the role. */
  ghost predicate Lives(p: Procs, c: Child, role: Role) { Alive(p, c) && p.forked[c].role == role }

  lemma ServingGeneration(s: Services, n: Generation)
    requires Inv(s) && IsCurrent(s.procs, s.gens, n)
    ensures Lives(s.procs, s.gens.children[n], Api) && s.gens.children[n] !in s.procs.terminating
  {
    hide StartInv, FlowInv;
    if s.gens.current.Some? { SomeValue(s.gens.current, s.gens.current.value); }
  }

  lemma StopsExactly(s: Services, n: Generation)
    requires Inv(s) && n in s.gens.children
    ensures var t := StopForGeneration(s, n);
            && (forall c | c in t.procs.terminating :: c in s.procs.terminating || (c in t.procs.forked && t.procs.forked[c].generation == Some(n)))
            && (forall c | Alive(t.procs, c) && t.procs.forked[c].generation == Some(n) :: c in t.procs.terminating)
            && t.gens.current != Some(n)
            && (s.gens.current.Some? && s.gens.current != Some(n) ==>
                  && t.gens == s.gens && t.procs.api == s.procs.api && t.procs.api.Some? && t.procs.api.value !in t.procs.terminating
                  && (t.gens.worker == t.gens.current ==> t.procs == s.procs))
  {
    hide StartInv, FlowInv;
    var t := StopForGeneration(s, n);
    forall c | c in t.procs.terminating && c !in s.procs.terminating ensures c in t.procs.forked && t.procs.forked[c].generation == Some(n) {
      StopsOwn(s, n, c);
    }
    forall c | Alive(t.procs, c) && t.procs.forked[c].generation == Some(n) ensures c in t.procs.terminating { StopsAllItsOwn(s, n, c); }
    if s.gens.current.Some? && s.gens.current != Some(n) { Spares(s, n, s.gens.current.value); }
    StopForKeeps(s, n);
    if t.gens.current.Some? { SomeValue(t.gens.current, t.gens.current.value); }
  }

  lemma StopsAllItsOwn(s: Services, n: Generation, c: Child)
    requires Inv(s) && n in s.gens.children && Alive(s.procs, c) && s.procs.forked[c].generation == Some(n)
    ensures c in StopForGeneration(s, n).procs.terminating
  {
    hide StartInv, FlowInv;
    if s.procs.forked[c].role == Api { assert OwnGeneration(s.procs, s.gens, c); }
  }

  lemma StopsEverything(s: Services)
    requires Inv(s)
    ensures var t := StopAllChildren(s);
            (forall c | Alive(t.procs, c) :: c in t.procs.terminating) && t.gens.current == None && t.gens.ready == None
  {
    hide StartInv, FlowInv;
    StopAllKeeps(s);
  }

  lemma TerminationMeans(s: Services, c: Child)
    requires Inv(s) && c in s.procs.terminating
    ensures var t := TerminationEnds(s, c);
            && (c in s.procs.exited ==> t.procs.api != Some(c) && t.procs.worker != Some(c))
            && (c !in s.procs.exited ==> t.procs.api == s.procs.api && t.procs.worker == s.procs.worker && Alive(t.procs, c))
            && t.flow.pauses.Keys == s.flow.pauses.Keys
            && (forall i | i in t.flow.pauses ::
                  t.flow.pauses[i] == if s.flow.pauses[i] == PauseWaits(c) then PauseSettled(c in s.procs.exited) else s.flow.pauses[i])
            && t.flow.starting != Some(StoppingWorker(c)) && t.procs.exited == s.procs.exited
            && (Starting(s, StoppingOld(c)) ==> Starting(t, OldStopped(c in s.procs.exited)))
            && t.procs.terminating == s.procs.terminating - {c}
  {
    hide StartInv, FlowInv, GenInv, RevokeAttempt;
  }

  lemma ClaimMeans(s: Services, n: Generation)
    requires Inv(s) && n in s.gens.children
    ensures var t := ClaimRecovery(s, n);
            && n in t.gens.claimed && n in t.gens.revoked && t.gens.current != Some(n) && t.gens.ready != Some(n)
            && (s.gens.current != Some(n) ==> t.gens.current == s.gens.current && t.gens.ready == s.gens.ready)
  {
    hide ProcInv, StartInv, FlowInv;
    ClaimKeeps(s, n);
    if s.gens.current.Some? { SomeValue(s.gens.current, s.gens.current.value); }
  }

  lemma ApiExitMeans(s: Services, c: Child)
    requires Inv(s) && StopEnabled(s, ObservesApi(c))
    ensures var (t, n) := (ApiExit(s, c), s.procs.forked[c].generation);
            && (s.gens.current == n ==> t.procs.api == None && t.gens.current == None && t.gens.ready == None && n.value in t.gens.revoked)
            && (s.gens.current != n ==> t.gens.current == s.gens.current && t.gens.ready == s.gens.ready)
            && (s.gens.current.Some? && s.gens.current != n ==> t == s)
            && t.procs.worker == s.procs.worker && t.procs.terminating == s.procs.terminating && t.procs.forked == s.procs.forked
  {
    hide StartInv, FlowInv;
    assert OwnGeneration(s.procs, s.gens, c);
    if s.gens.current.Some? { SomeValue(s.gens.current, s.gens.current.value); }
  }

  lemma BeginApiMeans(s: Services, databaseOk: bool)
    requires Inv(s) && Idle(s)
    ensures var t := BeginApi(s, databaseOk);
            && t.flow.running.Some?
            && (t.flow.running.value.start == NoStart <==> !databaseOk || (s.gens.current.Some? && Running(s, s.gens.current.value)))
            && (t.flow.running.value.start == NoStart ==> t == s)
            && (t.flow.running.value.start != NoStart ==>
                  t.gens.current == None && t.gens.ready == None && (t.procs.api.Some? ==> t.procs.api.value in t.procs.terminating))
  {
    hide StartInv, FlowInv;
    if s.gens.current.Some? {
      SomeValue(s.gens.current, s.gens.current.value);
      RunningIsCurrent(s, s.gens.current.value);
    }
  }

  lemma NoApiWhileStarting(s: Services)
    requires Inv(s) && s.flow.running.Some? && (s.flow.running.value.start == Detecting || s.flow.running.value.start == Resolving)
    ensures s.procs.api == None && s.gens.current == None
  {
    hide ProcInv, FlowInv;
  }

  lemma ForkApiMeans(s: Services, databaseOk: bool, forks: bool)
    requires Inv(s) && Starting(s, Resolving)
    ensures var t := ForkApi(s, databaseOk, forks);
            t.flow.running.Some?
            && if !databaseOk || !forks then t.procs == s.procs && t.gens == s.gens && t.flow.running.value.start == NoStart
            else
              && t.procs.api.Some? && t.procs.api.value !in s.procs.forked && t.procs.forked.Keys == s.procs.forked.Keys + {t.procs.api.value}
              && t.gens.current.Some? && (forall n | n in s.gens.children || n in t.gens.revoked :: n < t.gens.current.value)
              && t.gens.children == s.gens.children[t.gens.current.value := t.procs.api.value] && t.gens.ready == None
              && t.flow.running.value.start == Attaching(t.procs.api.value, t.gens.current.value)
              && t.procs.forked[t.procs.api.value] == Fork(Api, t.gens.current)
  {
    hide FlowInv;
  }

  lemma AttachMeans(s: Services, c: Child, n: Generation, attached: bool, databaseOk: bool)
    requires Inv(s) && s.flow.running.Some?
    ensures var t := ApiAttached(s, c, n, attached, databaseOk);
            && (t.gens.current == Some(n) <==> attached && databaseOk && s.procs.api == Some(c) && Running(s, n))
            && (t.gens.current == Some(n) ==>
                  && t.procs == s.procs && t.gens == s.gens && t.procs.api == Some(c) && Alive(t.procs, c) && c !in t.procs.terminating
                  && t.flow.running.Some? && t.flow.running.value.start == NoStart)
            && (t.gens.current != Some(n) && t.procs.api == Some(c) ==> t.procs.api.value in t.procs.terminating)
            && t.procs.api == s.procs.api && t.procs.worker == s.procs.worker && t.procs.terminating - {c} <= s.procs.terminating
            && t.flow.running.Some?
            && t.flow.running.value.start
               == if s.procs.api == Some(c) && !(attached && Running(s, n)) then StoppingNew(c, n) else NoStart
  {
    hide StartInv, FlowInv;
    RunningIsCurrent(s, n);
    ApiAttachedKeeps(s, c, n, attached, databaseOk);
    if s.gens.current.Some? { SomeValue(s.gens.current, s.gens.current.value); }
    if attached && databaseOk && s.procs.api == Some(c) && Running(s, n) { ServingGeneration(s, n); }
  }

  /** The generation is current and its child has not exited, and nobody else runs the API. */
  ghost predicate Running(s: Services, n: Generation) {
    !s.gens.external && s.gens.current == Some(n) && n in s.gens.children && s.gens.children[n] !in s.procs.exited
  }

  lemma RunningIsCurrent(s: Services, n: Generation)
    requires Inv(s)
    ensures IsCurrent(s.procs, s.gens, n) <==> Running(s, n)
  {
    hide ProcInv, StartInv, FlowInv;
    if s.gens.current.Some? { SomeValue(s.gens.current, s.gens.current.value); }
  }

  /** What `n` must be for a worker to be bound to it. */
  ghost predicate ServesIn(s: Services, n: Generation) {
    && s.gens.ready == Some(n) && s.gens.current == Some(n) && n !in s.gens.revoked && !s.gens.external
    && n in s.gens.children && Lives(s.procs, s.gens.children[n], Api) && s.gens.children[n] !in s.procs.terminating
  }

  lemma ServesMeans(s: Services, n: Option<Generation>)
    requires Inv(s) && s.flow.packaged
    ensures GenerationServes(s, n) <==> n.Some? && ServesIn(s, n.value)
  {
    hide Inv;
    if n.Some? {
      RunningIsCurrent(s, n.value);
      if GenerationServes(s, n) { ServingGeneration(s, n.value); }
    }
  }

  /** A packaged worker may be bound to the generation, or it needs none. */
  ghost predicate MayServe(s: Services, n: Option<Generation>) { s.flow.packaged ==> n.Some? && ServesIn(s, n.value) }

  lemma MayServeMeans(s: Services, n: Option<Generation>)
    requires Inv(s)
    ensures GenerationServes(s, n) <==> MayServe(s, n)
  {
    hide Inv, ServesIn;
    if s.flow.packaged { ServesMeans(s, n); }
  }

  lemma RequestMeans(s: Services, n: Option<Generation>, databaseOk: bool)
    requires Inv(s)
    ensures var t := StartWorker(s, n, databaseOk);
            && t == s.(flow := s.flow.(starting := t.flow.starting))
            && t.flow.starting
               == if s.flow.starting == None && s.procs.worker == None && !s.flow.paused && databaseOk && MayServe(s, n)
                  then Some(Registering(n)) else s.flow.starting
  {
    hide Inv, GenerationServes, MayServe;
    MayServeMeans(s, n);
  }

  lemma NoWorkerWhileStarting(s: Services)
    requires Inv(s)
    ensures s.flow.starting.Some? && (s.flow.starting.value.Registering? || s.flow.starting.value.Locating?) ==> s.procs.worker == None
  {
    hide ProcInv, GenInv, FlowInv;
  }

  lemma ForkWorkerMeans(s: Services, n: Option<Generation>, databaseOk: bool, forks: bool)
    requires Inv(s) && s.flow.starting == Some(Locating(n))
    ensures var t := ForkWorker(s, n, databaseOk, forks);
            && t.gens == s.gens.(worker := t.gens.worker) && t.flow.paused == s.flow.paused
            && (t.procs.forked != s.procs.forked <==> !s.flow.paused && databaseOk && forks && MayServe(s, n))
            && (t.procs.forked == s.procs.forked ==> t.flow.starting == None && t.procs == s.procs)
            && (t.procs.forked != s.procs.forked ==>
                  && t.procs.worker.Some? && t.procs.worker.value !in s.procs.forked
                  && t.procs.forked.Keys == s.procs.forked.Keys + {t.procs.worker.value}
                  && t.gens.worker == n && t.procs.forked[t.procs.worker.value] == Fork(Worker, n)
                  && t.flow.starting == Some(Offering(t.procs.worker.value, n))
                  && (s.flow.packaged ==> n.Some? && ServesIn(t, n.value)))
  {
    hide GenInv, StartInv, FlowInv, GenerationServes, ServesIn, MayServe;
    MayServeMeans(s, n);
    NewChild(s.procs);
    if s.flow.packaged && GenerationServes(s, n) {
      ServesMeans(s, n);
      StillServes(s, ForkWorker(s, n, databaseOk, forks), n.value);
    }
  }

  /** A fork and a worker's binding change nothing for the generation. */
  lemma StillServes(s: Services, t: Services, n: Generation)
    requires ServesIn(s, n) && t.gens == s.gens.(worker := t.gens.worker) && t.procs.exited == s.procs.exited
    requires t.procs.terminating == s.procs.terminating
    requires forall c | c in s.procs.forked :: c in t.procs.forked && t.procs.forked[c] == s.procs.forked[c]
    ensures ServesIn(t, n)
  {
  }

  lemma WorkerAttachedMeans(s: Services, c: Child, n: Option<Generation>, attached: bool, databaseOk: bool)
    requires Inv(s)
    ensures var t := WorkerAttached(s, c, n, attached, databaseOk);
            && t.procs == s.procs.(terminating := t.procs.terminating) && t.gens == s.gens
            && (t.procs.worker == Some(c) && c !in t.procs.terminating
                <==> attached && databaseOk && s.procs.worker == Some(c) && c !in s.procs.exited && c !in s.procs.terminating
                     && s.gens.worker == n && MayServe(s, n))
            && t.flow.starting == (if s.procs.worker == Some(c) && !(attached && c !in s.procs.exited && s.gens.worker == n)
                                   then Some(StoppingWorker(c)) else None)
            && t.procs.terminating - {c} <= s.procs.terminating
  {
    hide Inv, GenerationServes, MayServe;
    MayServeMeans(s, n);
  }

  lemma PauseMeans(s: Services)
    requires Inv(s)
    ensures var (t, q) := (CallPause(s), s.flow.nextPause);
            && t.flow.paused && q !in s.flow.pauses && q in t.flow.pauses
            && (forall e: nat | Resume(e) in t.flow.queue :: e < t.flow.epoch)
            && (t.flow.running.Some? && t.flow.running.value.job.Resume? ==> t.flow.running.value.job.epoch < t.flow.epoch)
            && (forall c | Lives(t.procs, c, Worker) :: c in t.procs.terminating && t.flow.pauses[q] == PauseWaits(c))
            && (t.procs.worker == None ==> t.flow.pauses[q] == PauseSettled(true))
  {
    hide GenInv, StartInv;
  }

  lemma ReturnMeans(packaged: bool, states: seq<Services>, events: seq<Event>, i: nat, j: nat, q: int)
    requires PausedFrom(packaged, states, events, i, j) && j < |events| && states[i].flow.nextPause == q && events[j] == OnCall(PauseReturns(q))
    ensures states[j + 1].procs == states[j].procs && states[j + 1].flow.paused && states[j].procs.worker == None
    ensures forall c | Alive(states[j].procs, c) :: states[j].procs.forked[c].role == Api
  {
    hide IsRun, Quiet, PauseWorks;
    PauseHolds(packaged, states, events, i, j);
    QuietIsPaused(states[j].flow, states[i].flow.epoch + 1);
    PauseWorksThroughout(packaged, states, events, i, j);
    RunStep(packaged, states, events, j);
    forall c | Alive(states[j].procs, c) ensures states[j].procs.forked[c].role == Api {
      PauseReturnsWithoutWorker(packaged, states, events, i, j, c);
    }
    NothingHeld(states[j], q);
  }

  lemma NothingHeld(s: Services, q: int)
    requires PauseWorks(s, q) && PauseAt(s.flow, q, true)
    ensures s.procs.worker == None
  {
  }

  lemma PausesForgotten(s: Services, q: int)
    requires Inv(s)
    ensures Inv(s.(flow := s.flow.(pauses := s.flow.pauses - {q})))
  {
    hide ProcInv, GenInv;
  }

  lemma ContainMeans(s: Services, q: int)
    requires Inv(s) && PauseAt(s.flow, q, false)
    ensures var t := PauseEnds(s, q);
            && (forall c | Alive(t.procs, c) :: c in t.procs.terminating) && t.gens.current == None && t.gens.ready == None
            && q !in t.flow.pauses
  {
    hide Inv, ProcInv, GenInv, StopApi, StopWorker;
    PausesForgotten(s, q);
    StopsEverything(s.(flow := s.flow.(pauses := s.flow.pauses - {q})));
  }

  lemma BeginMeans(s: Services, blocked: bool)
    requires Inv(s) && CallEnabled(s, Begins(blocked))
    ensures var (t, job) := (Begin(s, blocked), s.flow.queue[0]);
            && t.procs == s.procs && t.gens == s.gens && t.flow.queue == s.flow.queue[1..] && t.flow.epoch == s.flow.epoch
            && (t.flow.running.Some? ==> t.flow.running.value.job == job)
            && (job.Resume? && job.epoch != t.flow.epoch ==> (t.flow.paused <==> s.flow.paused || t.procs.worker == None))
            && (job.Resume? ==> (t.flow.running.Some? <==> s.procs.worker == None))
            && (job.Resume? && t.flow.running.Some? ==> (t.flow.running.value.phase == Preparing <==> job.epoch == s.flow.epoch))
            && (job == StartAll ==> (t.flow.running.Some? <==> !s.flow.packaged || (!blocked && s.procs.api == None && s.procs.worker == None)))
            && (job == StartAll && t.flow.running.Some? ==> !t.flow.paused && (s.flow.packaged ==> forall c :: !Alive(t.procs, c)))
            && (job == Other ==> t.flow.running.Some? && t.flow.paused == s.flow.paused)
            && (t.flow.running == None ==> t.flow.paused == s.flow.paused)
            && (t.flow.running.Some? ==> t.flow.running.value.start == NoStart && (t.flow.running.value.phase == Body <==> !job.Resume?))
            && (job.Resume? && t.flow.running.Some? ==>
                  (t.flow.paused <==> s.flow.paused || s.flow.packaged || t.flow.running.value.phase == Failed))
  {
    hide GenInv, StartInv, FlowInv;
  }

  lemma EnableMeans(s: Services, n: Option<Generation>, databaseOk: bool)
    requires Inv(s) && CallEnabled(s, Enables(n, databaseOk))
    ensures var t := Enable(s, n, databaseOk);
            && t.procs == s.procs && t.gens == s.gens && t.flow.running.Some? && t.flow.epoch == s.flow.epoch
            && (!t.flow.paused <==> t.flow.running.value.job == Resume(t.flow.epoch)) && (t.flow.paused <==> t.flow.running.value.phase == Failed)
            && t.flow.starting
               == if !t.flow.paused && s.flow.starting == None && s.procs.worker == None && databaseOk && MayServe(s, n)
                  then Some(Registering(n)) else s.flow.starting
  {
    hide ProcInv, GenInv, IsReady, ServesIn;
    MayServeMeans(s, n);
  }

  lemma ConcludeMeans(s: Services, n: Option<Generation>)
    requires Inv(s) && CallEnabled(s, Concludes(n))
    ensures var t := Conclude(s, n);
            && t.procs == s.procs && t.gens == s.gens && t.flow.epoch == s.flow.epoch
            && (t.flow.running.Some? ==> t.flow.paused && t.flow.running.value.phase == Failed)
            && (t.flow.running == None <==> s.flow.running.value.job == Resume(s.flow.epoch) && (s.flow.packaged ==> Established(s, n)))
            && (t.flow.running == None ==> !t.flow.paused)
  {
    hide GenInv, StartInv;
    assert Held(s.procs, Worker);
    if s.flow.packaged { ServesMeans(s, n); }
    if Conclude(s, n).flow.running == None { Concluded(s, n); }
  }

  /** A living worker is bound to a generation that serves. */
  ghost predicate Established(s: Services, n: Option<Generation>) {
    && n.Some? && ServesIn(s, n.value) && s.gens.worker == n && s.procs.worker.Some? && Lives(s.procs, s.procs.worker.value, Worker)
  }

  lemma WorkerGenerationIsItsOwn(s: Services)
    requires Inv(s)
    ensures s.procs.worker.Some? ==> s.procs.worker.value in s.procs.forked && s.procs.forked[s.procs.worker.value].generation == s.gens.worker
  {
    hide ProcInv, StartInv, FlowInv;
  }
}
