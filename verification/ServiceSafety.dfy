/** What every step of the service manager keeps, and what it promises over every run. */
module ServiceSafety {
  import opened Identifiers
  import opened ServiceSupervision

  // ---------------------------------------------------------------- invariants

  function Handle(p: Procs, role: Role): Option<Child> { if role == Api then p.api else p.worker }

  /** A handle holds a child of its role; a child that lives, or is being terminated, is held. */
  ghost predicate ProcInv(p: Procs) {
    && (forall role: Role :: Held(p, role))
    && (forall c | c in p.forked :: c < p.nextChild && (p.forked[c].role == Api ==> p.forked[c].generation.Some?))
    && (forall c | c in p.forked && c !in p.exited :: Handle(p, p.forked[c].role) == Some(c))
    && (forall c | c in p.terminating :: c in p.forked && Handle(p, p.forked[c].role) == Some(c))
  }

  ghost predicate Held(p: Procs, role: Role) {
    var h := Handle(p, role);
    h.Some? ==> h.value in p.forked && p.forked[h.value].role == role
  }

  ghost predicate GenInv(p: Procs, g: Gens) {
    && (g.ready == None || g.ready == g.current)
    && (g.current.Some? ==> g.current.value in g.children && g.current.value !in g.revoked
                            && p.api == Some(g.children[g.current.value]) && p.api.value !in p.terminating)
    && (forall n | n in g.children || n in g.revoked :: n <= g.next)
    && (forall n | n in g.children :: g.children[n] in p.forked && p.forked[g.children[n]] == Fork(Api, Some(n)))
    && (forall c | c in p.forked && p.forked[c].role == Api :: OwnGeneration(p, g, c))
    && (forall n | n in g.children :: g.current == Some(n) || n in g.revoked)
    && (forall n | n in g.claimed :: n in g.children && n in g.revoked)
    && (p.worker.Some? ==> p.worker.value in p.forked && p.forked[p.worker.value].generation == g.worker)
  }

  ghost predicate OwnGeneration(p: Procs, g: Gens, c: Child)
    requires c in p.forked
  {
    var n := p.forked[c].generation;
    n.Some? && n.value in g.children && g.children[n.value] == c
  }

  /** No API is held while a new one is being prepared, and no worker either. */
  ghost predicate StartInv(p: Procs, f: Flow) {
    && (f.running.Some? ==> GoodStart(p, f.running.value.start))
    && (f.starting.Some? && (f.starting.value.Registering? || f.starting.value.Locating?) ==> p.worker == None)
    && (forall i | i in f.pauses && f.pauses[i].PauseWaits? :: f.pauses[i].child in p.terminating && p.worker == Some(f.pauses[i].child))
  }

  ghost predicate GoodStart(p: Procs, a: ApiStart) {
    && (a == Detecting || a == Resolving || a == OldStopped(true) ==> p.api == None)
    && (a.StoppingOld? ==> a.child in p.terminating && p.api == Some(a.child))
    && (a.StoppingNew? ==> a.child in p.terminating)
  }

  /** A resume never remembers an epoch from the future, nor runs unpaused once superseded; one that has
      enabled the worker and has not been superseded is unpaused. */
  ghost predicate FlowInv(f: Flow) {
    && (forall e: nat | Resume(e) in f.queue :: e <= f.epoch)
    && (f.running.Some? && f.running.value.job.Resume? ==>
          f.running.value.job.epoch <= f.epoch && (f.running.value.job.epoch < f.epoch || f.running.value.phase == Failed ==> f.paused))
    && (f.running.Some? && (f.running.value.phase == Preparing || f.running.value.phase == Enabled) ==> f.running.value.job.Resume?)
    && (f.running.Some? && f.running.value.phase == Enabled && f.running.value.job.epoch == f.epoch ==> !f.paused)
    && (forall i | i in f.pauses :: i < f.nextPause)
  }

  ghost predicate Inv(s: Services) {
    ProcInv(s.procs) && GenInv(s.procs, s.gens) && StartInv(s.procs, s.flow) && FlowInv(s.flow)
  }

  // ---------------------------------------------------------------- stopping

  lemma StopWorkerKeeps(p: Procs, g: Gens, f: Flow)
    requires ProcInv(p) && GenInv(p, g) && StartInv(p, f)
    ensures ProcInv(StopWorker(p)) && GenInv(StopWorker(p), g) && StartInv(StopWorker(p), f)
  {
    assert Held(p, Api);
    if p.worker.Some? { assert Held(p, Worker); }
    assert forall role :: Held(p, role) ==> Held(StopWorker(p), role);
  }

  lemma StopApiKeeps(p: Procs, g: Gens, f: Flow)
    requires ProcInv(p) && GenInv(p, g) && StartInv(p, f) && (g.current == None || p.api == None)
    ensures ProcInv(StopApi(p)) && GenInv(StopApi(p), g) && StartInv(StopApi(p), f)
  {
    if p.api.Some? { assert Held(p, Api); }
    assert forall role :: Held(p, role) ==> Held(StopApi(p), role);
  }

  lemma RevokeKeeps(p: Procs, g: Gens, n: Option<Generation>)
    requires GenInv(p, g)
    ensures GenInv(p, Revoke(g, n)) && (g.current.Some? && n == g.current ==> g.current.value in Revoke(g, n).revoked)
    ensures g.revoked <= Revoke(g, n).revoked
  {
  }

  /** Whoever claims a generation's recovery revokes it, if it was not revoked already. */
  lemma ClaimKeepsGens(p: Procs, g: Gens, n: Generation)
    requires GenInv(p, g) && n in g.children
    ensures GenInv(p, Revoke(g.(claimed := g.claimed + {n}), Some(n)))
  {
    RevokeKeeps(p, g, Some(n));
    if g.current.Some? { SomeValue(g.current, g.current.value); }
  }

  lemma RevokeForStopKeeps(p: Procs, g: Gens)
    requires GenInv(p, g)
    ensures GenInv(p, RevokeForStop(p, g)) && (RevokeForStop(p, g).current == None || p.api == None)
  {
    RevokeKeeps(p, g, g.current);
  }

  lemma StopAllKeeps(s: Services)
    requires Inv(s)
    ensures Inv(StopAllChildren(s))
  {
    hide ProcInv, GenInv, StartInv, FlowInv, StopWorker, StopApi;
    var p := StopWorker(s.procs);
    StopWorkerKeeps(s.procs, s.gens, s.flow);
    RevokeForStopKeeps(p, s.gens);
    StopApiKeeps(p, RevokeForStop(p, s.gens), s.flow);
  }

  lemma StopForKeeps(s: Services, n: Generation)
    requires Inv(s) && n in s.gens.children
    ensures Inv(StopForGeneration(s, n))
  {
    hide ProcInv, GenInv, StartInv, FlowInv, StopWorker, StopApi;
    var p := if s.gens.worker == Some(n) then StopWorker(s.procs) else s.procs;
    StopWorkerKeeps(s.procs, s.gens, s.flow);
    RevokeForStopKeeps(p, s.gens);
    StopApiKeeps(p, RevokeForStop(p, s.gens), s.flow);
  }

  lemma EndTerminationKeeps(p: Procs, c: Child)
    requires ProcInv(p) && c in p.terminating
    ensures ProcInv(EndTermination(p, c))
  {
    var q := EndTermination(p, c);
    assert Held(p, Api) && Held(p, Worker);
    forall role: Role ensures Held(q, role) {}
  }

  lemma TerminationKeeps(s: Services, c: Child)
    requires Inv(s) && c in s.procs.terminating
    ensures Inv(TerminationEnds(s, c))
  {
    hide ProcInv, GenInv, StartInv, FlowInv;
    EndTerminationKeeps(s.procs, c);
    TerminationGens(s, c);
    TerminationStarts(s, c);
    TerminationFlow(s.flow, c, c in s.procs.exited);
  }

  lemma TerminationGens(s: Services, c: Child)
    requires Inv(s) && c in s.procs.terminating
    ensures var t := TerminationEnds(s, c); GenInv(t.procs, t.gens)
  {
    hide ProcInv, GenInv, StartInv, FlowInv, Revoke, EndTermination;
    var n := if s.flow.running.Some? && s.flow.running.value.start.StoppingNew? then Some(s.flow.running.value.start.generation) else None;
    RevokeKeeps(s.procs, s.gens, n);
    DropKeepsGens(s.procs, RevokeAttempt(s.flow, s.gens, c), c);
  }

  lemma DropKeepsGens(p: Procs, g: Gens, c: Child)
    requires ProcInv(p) && GenInv(p, g) && c in p.terminating
    ensures GenInv(EndTermination(p, c), if c in p.exited && p.worker == Some(c) then g.(worker := None) else g)
  {
    if g.current.Some? { SomeValue(g.current, g.current.value); }
  }

  lemma TerminationStarts(s: Services, c: Child)
    requires Inv(s) && c in s.procs.terminating
    ensures var t := TerminationEnds(s, c); StartInv(t.procs, t.flow)
  {
    hide GenInv, FlowInv, RevokeAttempt;
    assert Held(s.procs, Api) && Held(s.procs, Worker);
  }

  lemma TerminationFlow(f: Flow, c: Child, ok: bool)
    requires FlowInv(f)
    ensures FlowInv(Settle(f, c, ok))
  {
  }

  // ---------------------------------------------------------------- exits

  lemma ExitsKeeps(s: Services, c: Child)
    requires Inv(s)
    ensures Inv(s.(procs := s.procs.(exited := s.procs.exited + {c})))
  {
    var q := s.procs.(exited := s.procs.exited + {c});
    assert forall role :: Held(s.procs, role) ==> Held(q, role);
  }

  lemma CurrentChild(p: Procs, g: Gens)
    requires GenInv(p, g)
    ensures g.current.Some? ==>
              p.api.Some? && p.api.value in p.forked && p.forked[p.api.value] == Fork(Api, g.current) && p.api.value !in p.terminating
  {
    if g.current.Some? { SomeValue(g.current, g.current.value); }
  }

  lemma ApiExitKeeps(s: Services, c: Child)
    requires Inv(s) && StopEnabled(s, ObservesApi(c))
    ensures Inv(ApiExit(s, c))
  {
    hide FlowInv;
    var t := ApiExit(s, c);
    var n := s.procs.forked[c].generation.value;
    CurrentChild(s.procs, s.gens);
    assert OwnGeneration(s.procs, s.gens, c);
    ClaimKeepsGens(s.procs, s.gens, n);
    assert Held(s.procs, Api) && Held(s.procs, Worker);
    forall role: Role ensures Held(t.procs, role) {}
  }

  lemma WorkerExitKeeps(s: Services, c: Child)
    requires Inv(s) && StopEnabled(s, ObservesWorker(c))
    ensures Inv(WorkerExit(s, c))
  {
    hide FlowInv;
    var t := WorkerExit(s, c);
    assert Held(s.procs, Api) && Held(s.procs, Worker);
    forall role: Role ensures Held(t.procs, role) {}
  }

  lemma ClaimKeeps(s: Services, n: Generation)
    requires Inv(s) && n in s.gens.children
    ensures Inv(ClaimRecovery(s, n))
  {
    hide ProcInv, StartInv, FlowInv;
    ClaimKeepsGens(s.procs, s.gens, n);
  }

  lemma StopKeeps(s: Services, e: StopEvent)
    requires Inv(s) && StopEnabled(s, e)
    ensures Inv(StopApply(s, e))
  {
    hide StopAllChildren, StopForGeneration, TerminationEnds, ClaimRecovery, ApiExit, WorkerExit, ProcInv, StartInv, FlowInv;
    match e
    case StopsAll => StopAllKeeps(s);
    case StopsFor(n) => StopForKeeps(s, n);
    case Terminates(c) => TerminationKeeps(s, c);
    case Claims(n) => ClaimKeeps(s, n);
    case ForgetsWorker =>
    case Exits(c) => ExitsKeeps(s, c);
    case ObservesApi(c) => ApiExitKeeps(s, c);
    case ObservesWorker(c) => WorkerExitKeeps(s, c);
  }

  // ---------------------------------------------------------------- starting

  /** A forked child becomes the handle of a role that held none. */
  lemma ForkKeeps(p: Procs, q: Procs, role: Role, n: Option<Generation>)
    requires ProcInv(p) && Handle(p, role) == None && (role == Api ==> n.Some?)
    requires q == p.(forked := p.forked[p.nextChild := Fork(role, n)], nextChild := p.nextChild + 1, api := q.api, worker := q.worker)
    requires if role == Api then q.api == Some(p.nextChild) && q.worker == p.worker else q.worker == Some(p.nextChild) && q.api == p.api
    ensures ProcInv(q)
  {
    assert Held(p, Api) && Held(p, Worker);
    forall r: Role ensures Held(q, r) {}
    forall c | c in q.forked && c !in q.exited ensures Handle(q, q.forked[c].role) == Some(c) {
      if c != p.nextChild { assert Handle(p, p.forked[c].role) == Some(c); }
    }
  }

  lemma ForkApiKeeps(s: Services, databaseOk: bool, forks: bool)
    requires Inv(s) && Starting(s, Resolving)
    ensures Inv(ForkApi(s, databaseOk, forks))
  {
    hide FlowInv, ProcInv;
    var t := ForkApi(s, databaseOk, forks);
    SetStartFlow(s.flow, t.flow.running.value.start);
    if databaseOk && forks {
      ForkKeeps(s.procs, t.procs, Api, Some(s.gens.next + 1));
      WorkerIsForked(s.procs);
      NewChild(s.procs);
    }
  }

  lemma WorkerIsForked(p: Procs)
    requires ProcInv(p)
    ensures p.worker.Some? ==> p.worker.value in p.forked
  {
    assert Held(p, Worker);
  }

  lemma SetStartFlow(f: Flow, a: ApiStart)
    requires FlowInv(f) && f.running.Some?
    ensures FlowInv(SetStart(f, a))
  {
  }

  lemma BeginApiKeeps(s: Services, databaseOk: bool)
    requires Inv(s) && Idle(s)
    ensures Inv(BeginApi(s, databaseOk))
  {
    hide FlowInv;
    var g := Revoke(s.gens, None);
    RevokeKeeps(s.procs, s.gens, None);
    StopApiKeeps(s.procs, g, s.flow);
    SetStartFlow(s.flow, Detecting);
    if s.procs.api.Some? { SetStartFlow(s.flow, StoppingOld(s.procs.api.value)); }
  }

  /** A step of `startApi` that forks and stops nothing. */
  lemma MoveStartKeeps(s: Services, a: ApiStart, external: bool)
    requires Inv(s) && s.flow.running.Some? && GoodStart(s.procs, a)
    ensures Inv(s.(gens := s.gens.(external := external), flow := SetStart(s.flow, a))) && Inv(s.(flow := SetStart(s.flow, a)))
  {
    hide ProcInv, FlowInv;
    SetStartFlow(s.flow, a);
  }

  lemma ApiAttachedKeeps(s: Services, c: Child, n: Generation, attached: bool, databaseOk: bool)
    requires Inv(s) && s.flow.running.Some?
    ensures Inv(ApiAttached(s, c, n, attached, databaseOk))
  {
    hide ProcInv, FlowInv, GenInv, IsCurrent;
    SetStartFlow(s.flow, NoStart);
    SetStartFlow(s.flow, StoppingNew(c, n));
    RevokeKeeps(s.procs, s.gens, Some(n));
    RevokeForStopKeeps(s.procs, s.gens);
    StopApiKeeps(s.procs, RevokeForStop(s.procs, s.gens), s.flow);
  }

  lemma StartWorkerKeeps(s: Services, n: Option<Generation>, databaseOk: bool)
    requires Inv(s)
    ensures Inv(StartWorker(s, n, databaseOk))
  {
    hide ProcInv, GenInv;
  }

  lemma MoveWorkerKeeps(s: Services, w: Option<WorkerStart>)
    requires Inv(s) && (w.Some? && (w.value.Registering? || w.value.Locating?) ==> s.procs.worker == None)
    ensures Inv(s.(flow := SetWorkerStart(s.flow, w)))
  {
    hide ProcInv, GenInv;
  }

  lemma ForkWorkerKeeps(s: Services, n: Option<Generation>, databaseOk: bool, forks: bool)
    requires Inv(s) && s.flow.starting == Some(Locating(n))
    ensures Inv(ForkWorker(s, n, databaseOk, forks))
  {
    hide FlowInv, ProcInv, GenerationServes;
    var t := ForkWorker(s, n, databaseOk, forks);
    MoveWorkerKeeps(s, None);
    WorkerFlow(s.flow, t.flow.starting);
    if !s.flow.paused && databaseOk && GenerationServes(s, n) && forks {
      ForkKeeps(s.procs, t.procs, Worker, n);
      NewChild(s.procs);
    }
  }

  lemma NewChild(p: Procs)
    requires ProcInv(p)
    ensures p.nextChild !in p.forked && p.nextChild !in p.terminating
  {
  }

  lemma WorkerFlow(f: Flow, w: Option<WorkerStart>)
    requires FlowInv(f)
    ensures FlowInv(SetWorkerStart(f, w))
  {
  }

  lemma WorkerAttachedKeeps(s: Services, c: Child, n: Option<Generation>, attached: bool, databaseOk: bool)
    requires Inv(s)
    ensures Inv(WorkerAttached(s, c, n, attached, databaseOk))
  {
    hide ProcInv, GenInv, StartInv, FlowInv, GenerationServes, StopWorker, SetWorkerStart;
    var t := s.(procs := StopWorker(s.procs));
    StopWorkerKeeps(s.procs, s.gens, s.flow);
    MoveWorkerKeeps(t, Some(StoppingWorker(c)));
    MoveWorkerKeeps(t, None);
    MoveWorkerKeeps(s, None);
  }

  lemma MarkReadyKeeps(p: Procs, g: Gens, n: Generation)
    requires GenInv(p, g)
    ensures GenInv(p, MarkReady(p, g, n))
  {
  }

  lemma StartKeeps(s: Services, e: StartEvent)
    requires Inv(s) && StartEnabled(s, e)
    ensures Inv(StartApply(s, e))
  {
    hide ProcInv, GenInv, FlowInv, BeginApi, ForkApi, ApiAttached, StartWorker, ForkWorker, WorkerAttached, MarkReady, SetStart, SetWorkerStart;
    match e
    case BeginsApi(databaseOk) => BeginApiKeeps(s, databaseOk);
    case OldStops => MoveStartKeeps(s, if s.flow.running.value.start.ok then Detecting else NoStart, s.gens.external);
    case Detects(external, databaseOk) =>
      MoveStartKeeps(s, NoStart, external);
      MoveStartKeeps(s, Resolving, external);
    case ForksApi(databaseOk, forks) => ForkApiKeeps(s, databaseOk, forks);
    case AttachesApi(attached, databaseOk) =>
      ApiAttachedKeeps(s, s.flow.running.value.start.child, s.flow.running.value.start.generation, attached, databaseOk);
    case MarksReady(n) => MarkReadyKeeps(s.procs, s.gens, n);
    case StartsWorker(n, databaseOk) => StartWorkerKeeps(s, n, databaseOk);
    case Registers(ok) =>
      MoveWorkerKeeps(s, None);
      MoveWorkerKeeps(s, Some(Locating(s.flow.starting.value.generation)));
    case ForksWorker(databaseOk, forks) => ForkWorkerKeeps(s, s.flow.starting.value.generation, databaseOk, forks);
    case AttachesWorker(attached, databaseOk) =>
      WorkerAttachedKeeps(s, s.flow.starting.value.child, s.flow.starting.value.generation, attached, databaseOk);
  }

  // ---------------------------------------------------------------- calls and sections

  lemma PauseKeeps(s: Services)
    requires Inv(s)
    ensures Inv(CallPause(s))
  {
    hide ProcInv, GenInv;
    StopWorkerKeeps(s.procs, s.gens, s.flow);
  }

  lemma PauseEndsKeeps(s: Services, i: int)
    requires Inv(s) && i in s.flow.pauses
    ensures Inv(PauseEnds(s, i))
  {
    hide ProcInv, GenInv, StopAllChildren;
    StopAllKeeps(s.(flow := s.flow.(pauses := s.flow.pauses - {i})));
  }

  lemma BeginFlow(s: Services, blocked: bool)
    requires FlowInv(s.flow) && s.flow.running == None && s.flow.queue != []
    ensures FlowInv(Begin(s, blocked).flow)
  {
    assert s.flow.queue[0] in s.flow.queue;
  }

  lemma BeginStarts(s: Services, blocked: bool)
    requires StartInv(s.procs, s.flow) && s.flow.running == None && s.flow.queue != []
    ensures var t := Begin(s, blocked); t.procs == s.procs && t.gens == s.gens && StartInv(t.procs, t.flow)
  {
  }

  lemma BeginKeeps(s: Services, blocked: bool)
    requires Inv(s) && s.flow.running == None && s.flow.queue != []
    ensures Inv(Begin(s, blocked))
  {
    hide ProcInv, GenInv, StartInv, FlowInv, Begin;
    BeginFlow(s, blocked);
    BeginStarts(s, blocked);
  }

  lemma FailKeeps(s: Services, section: Section)
    requires Inv(s) && s.flow.running == Some(section)
    ensures Inv(Fail(s, section))
  {
    hide ProcInv, GenInv;
  }

  lemma EnableKeeps(s: Services, n: Option<Generation>, databaseOk: bool)
    requires Inv(s) && CallEnabled(s, Enables(n, databaseOk))
    ensures Inv(Enable(s, n, databaseOk))
  {
    hide ProcInv, GenInv, StartWorker;
    var section := s.flow.running.value;
    FailKeeps(s, section);
    if s.flow.epoch == section.job.epoch {
      StartWorkerKeeps(s.(flow := s.flow.(paused := false, running := Some(section.(phase := Enabled)))), n, databaseOk);
    }
  }

  lemma EndKeeps(s: Services)
    requires Inv(s)
    ensures Inv(s.(flow := s.flow.(running := None)))
  {
    hide ProcInv, GenInv;
  }

  lemma QueueKeeps(s: Services, job: Job)
    requires Inv(s) && (job.Resume? ==> job.epoch == s.flow.epoch)
    ensures Inv(s.(flow := s.flow.(queue := s.flow.queue + [job])))
  {
    hide ProcInv, GenInv;
  }

  lemma CallKeeps(s: Services, e: CallEvent)
    requires Inv(s) && CallEnabled(s, e)
    ensures Inv(CallApply(s, e))
  {
    hide ProcInv, GenInv, StartInv, FlowInv, Inv, CallPause, Begin, Fail, Enable, PauseEnds;
    match e
    case CallsStartAll => QueueKeeps(s, StartAll);
    case CallsResume => QueueKeeps(s, Resume(s.flow.epoch));
    case QueuesOther => QueueKeeps(s, Other);
    case CallsPause => PauseKeeps(s);
    case Begins(blocked) => BeginKeeps(s, blocked);
    case Ends => EndKeeps(s);
    case Throws => FailKeeps(s, s.flow.running.value);
    case Enables(n, databaseOk) => EnableKeeps(s, n, databaseOk);
    case Concludes(n) =>
      FailKeeps(s, s.flow.running.value);
      EndKeeps(s);
    case PauseReturns(i) => PauseEndsKeeps(s, i);
    case PauseContains(i) => PauseEndsKeeps(s, i);
  }

  // ---------------------------------------------------------------- runs

  lemma Step(s: Services, e: Event)
    requires Inv(s) && CanHappen(s, e)
    ensures Inv(Apply(s, e))
  {
    hide Inv, CallApply, StartApply, StopApply;
    match e
    case OnCall(c) => CallKeeps(s, c);
    case OnStart(c) => StartKeeps(s, c);
    case OnStop(c) => StopKeeps(s, c);
  }

  lemma {:induction false} RunKeeps(packaged: bool, states: seq<Services>, events: seq<Event>, i: nat)
    requires IsRun(packaged, states, events) && i < |states|
    ensures Inv(states[i])
  {
    if i == 0 {
      assert forall role :: Held(states[0].procs, role);
    } else {
      hide Inv, CanHappen, Apply;
      RunKeeps(packaged, states, events, i - 1);
      Step(states[i - 1], events[i - 1]);
    }
  }

  lemma RunStep(packaged: bool, states: seq<Services>, events: seq<Event>, i: nat)
    requires IsRun(packaged, states, events) && i < |events|
    ensures |states| == |events| + 1 && CanHappen(states[i], events[i]) && states[i + 1] == Apply(states[i], events[i])
  {
    hide CanHappen, Apply;
  }
}
