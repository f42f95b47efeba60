/** The service manager's methods, one per stretch of code between two awaits, on the fields they
    update. `Valid()` says that the calls so far are a run of `ServiceSupervision` ending in these
    fields, so every theorem about runs holds of the object; each method says what it means for it. */
module ServiceManager {
  import opened Identifiers
  import opened ServiceSupervision
  import opened ServiceSafety
  import opened ServiceSteps
  import opened ServiceTheorems

  // ---------------------------------------------------------------- runs

  /** The events lead from the start to `s`. */
  ghost predicate RunTo(packaged: bool, states: seq<Services>, events: seq<Event>, s: Services) {
    IsRun(packaged, states, events) && states[|events|] == s
  }

  lemma RunBegins(packaged: bool)
    ensures RunTo(packaged, [Empty(packaged)], [], Empty(packaged))
  {
  }

  lemma RunGoesOn(packaged: bool, states: seq<Services>, events: seq<Event>, s: Services, e: Event)
    requires RunTo(packaged, states, events, s) && CanHappen(s, e)
    ensures RunTo(packaged, states + [Apply(s, e)], events + [e], Apply(s, e))
  {
    hide Apply, CanHappen, IsRun;
    RunLength(packaged, states, events);
    RunExtends(packaged, states, events, e);
    var more := states + [Apply(s, e)];
    assert more[|events + [e]|] == Apply(s, e);
  }

  lemma RunIsSafe(packaged: bool, states: seq<Services>, events: seq<Event>, s: Services)
    requires RunTo(packaged, states, events, s)
    ensures Inv(s) && s.flow.packaged == packaged && |states| == |events| + 1
  {
    hide IsRun, Inv;
    RunLength(packaged, states, events);
    RunKeeps(packaged, states, events, |events|);
    PackagedStays(packaged, states, events, |events|);
  }

  class DesktopServiceManager {
    const packaged: bool
    // child processes
    var api: Option<Child>
    var worker: Option<Child>
    var forked: map<Child, Fork>
    var nextChild: Child
    var exited: set<Child>
    var terminatingProcesses: set<Child>
    // API generations
    var apiGeneration: Option<Generation>
    var readyApiGeneration: Option<Generation>
    var workerApiGeneration: Option<Generation>
    var generationChild: map<Generation, Child>
    var nextApiGeneration: Generation
    var revoked: set<Generation>
    var recovering: set<Generation>
    var external: bool
    // lifecycle
    var paused: bool
    var pauseIntentEpoch: nat
    var lifecycleQueue: seq<Job>
    var running: Option<Section>
    var workerStartInFlight: Option<WorkerStart>
    var pauses: map<int, Pause>
    var nextPause: int
    // the run so far
    ghost var states: seq<Services>
    ghost var events: seq<Event>

    function ProcState(): Procs reads this { Procs(api, worker, forked, nextChild, exited, terminatingProcesses) }

    function GenState(): Gens
      reads this
    {
      Gens(apiGeneration, readyApiGeneration, workerApiGeneration, generationChild, nextApiGeneration, revoked, recovering, external)
    }

    function FlowState(): Flow
      reads this
    {
      Flow(packaged, paused, pauseIntentEpoch, lifecycleQueue, running, workerStartInFlight, pauses, nextPause)
    }

    function State(): Services reads this { Services(ProcState(), GenState(), FlowState()) }

    /** The calls so far are a run that ends in these fields. */
    ghost predicate Valid()
      reads this
    {
      RunTo(packaged, states, events, State())
    }

    /** So the object has at most one living child of each role, and its generations agree. */
    lemma ValidIsSafe()
      requires Valid()
      ensures Inv(State()) && OneOfEach(ProcState()) && GenerationsAgree(ProcState(), GenState())
    {
      hide RunTo, Inv;
      RunIsSafe(packaged, states, events, State());
      InvMeans(State());
    }

    /** One more event of the run has just happened. */
    ghost method Happened(before: Services, e: Event)
      requires RunTo(packaged, states, events, before) && CanHappen(before, e) && State() == Apply(before, e)
      modifies this`states, this`events
      ensures Valid() && events == old(events) + [e] && states == old(states) + [State()] && Inv(State())
    {
      hide RunTo, Inv, Apply, CanHappen;
      RunGoesOn(packaged, states, events, before, e);
      states := states + [State()];
      events := events + [e];
      RunIsSafe(packaged, states, events, State());
    }

    constructor (packaged: bool)
      ensures Valid() && State() == Empty(packaged) && events == []
    {
      this.packaged := packaged;
      api, worker, forked, nextChild, exited, terminatingProcesses := None, None, map[], 0, {}, {};
      apiGeneration, readyApiGeneration, workerApiGeneration := None, None, None;
      generationChild, nextApiGeneration, revoked, recovering, external := map[], 0, {}, {}, false;
      paused, pauseIntentEpoch, lifecycleQueue, running := false, 0, [], None;
      workerStartInFlight, pauses, nextPause := None, map[], 0;
      states, events := [Empty(packaged)], [];
      new;
      RunBegins(packaged);
    }

    /** `e` is what this call did, and the run now ends with it. */
    twostate predicate Did(e: Event)
      reads this
    {
      && Valid() && events == old(events) + [e] && states == old(states) + [State()]
      && CanHappen(old(State()), e) && State() == Apply(old(State()), e)
    }

    // -------------------------------------------------------------- parts of the calls below

    method RevokeApiGeneration(expected: Option<Generation>)
      modifies this`apiGeneration, this`readyApiGeneration, this`revoked
      ensures GenState() == Revoke(old(GenState()), expected)
    {
      if apiGeneration == None || (expected.Some? && apiGeneration != expected) { return; }
      revoked := revoked + {apiGeneration.value};
      if readyApiGeneration == apiGeneration { readyApiGeneration := None; }
      apiGeneration := None;
    }

    /** `stopProcess` of the API, up to its await. */
    method StopApiProcess()
      modifies this`terminatingProcesses, this`apiGeneration, this`readyApiGeneration, this`revoked
      ensures ProcState() == StopApi(old(ProcState()))
      ensures GenState() == RevokeForStop(old(ProcState()), old(GenState()))
    {
      if api == None { return; }
      if api.value !in terminatingProcesses {
        if apiGeneration.Some? && apiGeneration.value in generationChild && generationChild[apiGeneration.value] == api.value {
          RevokeApiGeneration(apiGeneration);
        }
        terminatingProcesses := terminatingProcesses + {api.value};
      }
    }

    /** `stopProcess` of the worker, up to its await. */
    method StopWorkerProcess()
      modifies this`terminatingProcesses
      ensures ProcState() == StopWorker(old(ProcState()))
    {
      if worker == None { return; }
      if worker.value !in terminatingProcesses { terminatingProcesses := terminatingProcesses + {worker.value}; }
    }

    method StopEveryProcess()
      modifies this`terminatingProcesses, this`apiGeneration, this`readyApiGeneration, this`revoked
      ensures State() == StopAllChildren(old(State()))
    {
      StopWorkerProcess();
      StopApiProcess();
    }

    method RevokeFailedAttempt(c: Child)
      modifies this`apiGeneration, this`readyApiGeneration, this`revoked
      ensures GenState() == RevokeAttempt(FlowState(), old(GenState()), c)
    {
      if running.Some? && running.value.start.StoppingNew? && running.value.start.child == c {
        RevokeApiGeneration(Some(running.value.start.generation));
      }
    }

    /** With proof of exit the handle is dropped, and with the worker's handle its generation. */
    method DropHandle(c: Child)
      modifies this`terminatingProcesses, this`api, this`worker, this`workerApiGeneration
      ensures ProcState() == EndTermination(old(ProcState()), c)
      ensures workerApiGeneration == if c in exited && old(worker) == Some(c) then None else old(workerApiGeneration)
    {
      terminatingProcesses := terminatingProcesses - {c};
      if c !in exited { return; }
      if api == Some(c) { api := None; }
      if worker == Some(c) {
        worker := None;
        workerApiGeneration := None;
      }
    }

    method SettleWaiters(c: Child, ok: bool)
      modifies this`running, this`workerStartInFlight, this`pauses
      ensures FlowState() == Settle(old(FlowState()), c, ok)
    {
      if running.Some? {
        running := Some(running.value.(start := SettleStart(running.value.start, c, ok)));
      }
      if workerStartInFlight == Some(StoppingWorker(c)) { workerStartInFlight := None; }
      pauses := map i | i in pauses :: if pauses[i] == PauseWaits(c) then PauseSettled(ok) else pauses[i];
    }

    method EndStop(c: Child)
      modifies this
      ensures State() == TerminationEnds(old(State()), c) && states == old(states) && events == old(events)
    {
      hide Settle, EndTermination, Revoke, RevokeAttempt;
      var ok := c in exited;
      RevokeFailedAttempt(c);
      DropHandle(c);
      SettleWaiters(c, ok);
    }

    method ClaimStretch(n: Generation)
      modifies this`apiGeneration, this`readyApiGeneration, this`revoked, this`recovering
      ensures State() == ClaimRecovery(old(State()), n)
    {
      if n in recovering { return; }
      recovering := recovering + {n};
      RevokeApiGeneration(Some(n));
    }

    method LoseApi(c: Child)
      requires c in forked && forked[c].generation.Some?
      modifies this`api, this`apiGeneration, this`readyApiGeneration, this`revoked, this`recovering
      ensures State() == ApiExit(old(State()), c)
    {
      if api != Some(c) || c in terminatingProcesses { return; }
      var n := forked[c].generation.value;
      if n in recovering { return; }
      recovering := recovering + {n};
      RevokeApiGeneration(Some(n));
      api := None;
    }

    method BeginApiStretch(databaseOk: bool)
      requires running.Some?
      modifies this`terminatingProcesses, this`apiGeneration, this`readyApiGeneration, this`revoked, this`running
      ensures State() == BeginApi(old(State()), databaseOk)
    {
      hide IsCurrent;
      if !databaseOk { return; }
      var isCurrent := false;
      if apiGeneration.Some? { isCurrent := IsApiGenerationCurrent(apiGeneration.value); }
      if isCurrent { return; }
      RevokeApiGeneration(None);
      StopOldApi();
    }

    method ForkApiStretch(databaseOk: bool, forks: bool)
      requires running.Some?
      modifies this`api, this`forked, this`nextChild, this`apiGeneration, this`generationChild, this`nextApiGeneration, this`running
      ensures ProcState() == ForkApi(old(State()), databaseOk, forks).procs
      ensures GenState() == ForkApi(old(State()), databaseOk, forks).gens
      ensures FlowState() == ForkApi(old(State()), databaseOk, forks).flow
    {
      if !databaseOk || !forks {
        running := Some(running.value.(start := NoStart));
        return;
      }
      nextApiGeneration := nextApiGeneration + 1;
      var c := ForkChild(Fork(Api, Some(nextApiGeneration)));
      api := Some(c);
      generationChild := generationChild[nextApiGeneration := c];
      apiGeneration := Some(nextApiGeneration);
      running := Some(running.value.(start := Attaching(c, nextApiGeneration)));
    }

    method DropApiAttempt(c: Child, n: Generation)
      requires running.Some?
      modifies this`terminatingProcesses, this`apiGeneration, this`readyApiGeneration, this`revoked, this`running
      ensures ProcState() == if api == Some(c) then StopApi(old(ProcState())) else old(ProcState())
      ensures GenState() == if api == Some(c) then RevokeForStop(old(ProcState()), old(GenState())) else Revoke(old(GenState()), Some(n))
      ensures FlowState() == SetStart(old(FlowState()), if api == Some(c) then StoppingNew(c, n) else NoStart)
    {
      hide RevokeForStop, StopApi, Revoke;
      if api == Some(c) {
        StopApiProcess();
        running := Some(running.value.(start := StoppingNew(c, n)));
      } else {
        RevokeApiGeneration(Some(n));
        running := Some(running.value.(start := NoStart));
      }
    }

    method AttachApiStretch(c: Child, n: Generation, attached: bool, databaseOk: bool)
      requires running.Some?
      modifies this`terminatingProcesses, this`apiGeneration, this`readyApiGeneration, this`revoked, this`running
      ensures ProcState() == ApiAttached(old(State()), c, n, attached, databaseOk).procs
      ensures GenState() == ApiAttached(old(State()), c, n, attached, databaseOk).gens
      ensures FlowState() == ApiAttached(old(State()), c, n, attached, databaseOk).flow
    {
      hide IsCurrent, RevokeForStop, StopApi, Revoke;
      var isCurrent := IsApiGenerationCurrent(n);
      if !attached || c in exited || api != Some(c) || !isCurrent {
        DropApiAttempt(c, n);
      } else {
        EndApiAttempt(databaseOk);
      }
    }

    method EndApiAttempt(databaseOk: bool)
      requires running.Some?
      modifies this`terminatingProcesses, this`apiGeneration, this`readyApiGeneration, this`revoked, this`running
      ensures ProcState() == if databaseOk then old(ProcState()) else StopApi(old(ProcState()))
      ensures GenState() == if databaseOk then old(GenState()) else RevokeForStop(old(ProcState()), old(GenState()))
      ensures FlowState() == SetStart(old(FlowState()), NoStart)
    {
      hide RevokeForStop, StopApi;
      if !databaseOk { StopApiProcess(); }
      running := Some(running.value.(start := NoStart));
    }

    /** `fork`. */
    method ForkChild(fork: Fork) returns (c: Child)
      modifies this`forked, this`nextChild
      ensures c == old(nextChild) && nextChild == c + 1 && forked == old(forked)[c := fork]
    {
      c := nextChild;
      forked := forked[c := fork];
      nextChild := c + 1;
    }

    /** With the generation revoked, wait for the old child to be gone. */
    method StopOldApi()
      requires running.Some? && apiGeneration == None
      modifies this`terminatingProcesses, this`apiGeneration, this`readyApiGeneration, this`revoked, this`running
      ensures ProcState() == StopApi(old(ProcState())) && GenState() == old(GenState())
      ensures FlowState() == SetStart(old(FlowState()), if api.Some? then StoppingOld(api.value) else Detecting)
    {
      if api.Some? {
        StopApiProcess();
        running := Some(running.value.(start := StoppingOld(api.value)));
      } else {
        running := Some(running.value.(start := Detecting));
      }
    }

    /** `startWorker`: single flight, then the prechecks of `startWorkerOwned`. */
    method RequestWorker(n: Option<Generation>, databaseOk: bool)
      modifies this`workerStartInFlight
      ensures State() == StartWorker(old(State()), n, databaseOk)
    {
      hide GenerationServes;
      if workerStartInFlight.Some? { return; }
      if worker.Some? || paused || !databaseOk { return; }
      var serves := CanServe(n);
      if serves { workerStartInFlight := Some(Registering(n)); }
    }

    method HoldWorker(n: Option<Generation>)
      modifies this`worker, this`forked, this`nextChild, this`workerApiGeneration, this`workerStartInFlight
      ensures ProcState() == old(ProcState()).(worker := Some(old(nextChild)), forked := old(forked)[old(nextChild) := Fork(Worker, n)],
                                               nextChild := old(nextChild) + 1)
      ensures GenState() == old(GenState()).(worker := n)
      ensures FlowState() == SetWorkerStart(old(FlowState()), Some(Offering(old(nextChild), n)))
    {
      var c := ForkChild(Fork(Worker, n));
      worker := Some(c);
      workerApiGeneration := n;
      workerStartInFlight := Some(Offering(c, n));
    }

    method ForkWorkerStretch(n: Option<Generation>, databaseOk: bool, forks: bool)
      modifies this`worker, this`forked, this`nextChild, this`workerApiGeneration, this`workerStartInFlight
      ensures ProcState() == ForkWorker(old(State()), n, databaseOk, forks).procs
      ensures GenState() == ForkWorker(old(State()), n, databaseOk, forks).gens
      ensures FlowState() == ForkWorker(old(State()), n, databaseOk, forks).flow
    {
      hide GenerationServes, SetWorkerStart;
      var serves := CanServe(n);
      if paused || !databaseOk || !serves || !forks { SetInFlight(None); } else { HoldWorker(n); }
    }

    method SetInFlight(start: Option<WorkerStart>)
      modifies this`workerStartInFlight
      ensures FlowState() == SetWorkerStart(old(FlowState()), start)
    {
      workerStartInFlight := start;
    }

    method AttachWorkerStretch(c: Child, n: Option<Generation>, attached: bool, databaseOk: bool)
      modifies this`terminatingProcesses, this`workerStartInFlight
      ensures ProcState() == WorkerAttached(old(State()), c, n, attached, databaseOk).procs
      ensures GenState() == WorkerAttached(old(State()), c, n, attached, databaseOk).gens
      ensures FlowState() == WorkerAttached(old(State()), c, n, attached, databaseOk).flow
    {
      hide GenerationServes, SetWorkerStart, StopWorker;
      if !attached || c in exited || worker != Some(c) || workerApiGeneration != n {
        if worker == Some(c) {
          StopWorkerProcess();
          SetInFlight(Some(StoppingWorker(c)));
        } else {
          SetInFlight(None);
        }
      } else {
        var serves := CanServe(n);
        if !databaseOk || !serves { StopWorkerProcess(); }
        SetInFlight(None);
      }
    }

    method PauseStretch() returns (pause: int)
      modifies this`pauseIntentEpoch, this`paused, this`terminatingProcesses, this`pauses, this`nextPause
      ensures ProcState() == CallPause(old(State())).procs
      ensures GenState() == CallPause(old(State())).gens
      ensures FlowState() == CallPause(old(State())).flow
      ensures pause == old(nextPause)
    {
      hide StopWorker;
      var waits := if worker.Some? then PauseWaits(worker.value) else PauseSettled(true);
      StopWorkerProcess();
      pause := RecordPause(waits);
    }

    method RecordPause(waits: Pause) returns (pause: int)
      modifies this`pauseIntentEpoch, this`paused, this`pauses, this`nextPause
      ensures pause == old(nextPause)
      ensures FlowState() == old(FlowState()).(epoch := old(pauseIntentEpoch) + 1, paused := true,
                                               pauses := old(pauses)[pause := waits], nextPause := pause + 1)
    {
      pause := nextPause;
      pauseIntentEpoch, paused, pauses, nextPause := pauseIntentEpoch + 1, true, pauses[pause := waits], pause + 1;
    }

    method ContainStretch(pause: int)
      requires pause in pauses && pauses[pause] == PauseSettled(false)
      modifies this`pauses, this`terminatingProcesses, this`apiGeneration, this`readyApiGeneration, this`revoked
      ensures State() == PauseEnds(old(State()), pause)
    {
      hide StopAllChildren;
      pauses := pauses - {pause};
      StopEveryProcess();
    }

    method BeginStretch(blocked: bool)
      requires lifecycleQueue != []
      modifies this`lifecycleQueue, this`running, this`paused
      ensures ProcState() == Begin(old(State()), blocked).procs
      ensures GenState() == Begin(old(State()), blocked).gens
      ensures FlowState() == Begin(old(State()), blocked).flow
    {
      var job := lifecycleQueue[0];
      lifecycleQueue := lifecycleQueue[1..];
      match job
      case Other =>
        running := Some(Section(Other, Body, NoStart));
      case StartAll =>
        if !(packaged && (blocked || api.Some? || worker.Some?)) {
          paused := false;
          running := Some(Section(StartAll, Body, NoStart));
        }
      case Resume(epoch) =>
        if worker.Some? { return; }
        if pauseIntentEpoch != epoch {
          FailSection(Section(job, Failed, NoStart));
          return;
        }
        if packaged { paused := true; }
        running := Some(Section(job, Preparing, NoStart));
    }

    method EnableStretch(n: Option<Generation>, databaseOk: bool)
      requires InPhase(FlowState(), Preparing) && running.value.job.Resume?
      modifies this`running, this`paused, this`workerStartInFlight
      ensures State() == Enable(old(State()), n, databaseOk)
    {
      hide StartWorker;
      if pauseIntentEpoch != running.value.job.epoch {
        FailSection(running.value);
        return;
      }
      paused := false;
      running := Some(running.value.(phase := Enabled));
      RequestWorker(n, databaseOk);
    }

    method ConcludeStretch(n: Option<Generation>)
      requires InPhase(FlowState(), Enabled) && running.value.job.Resume?
      modifies this`running, this`paused
      ensures State() == Conclude(old(State()), n)
    {
      hide GenerationServes;
      var serves := CanServe(n);
      var established := serves && worker.Some? && worker.value !in exited && workerApiGeneration == n;
      if pauseIntentEpoch != running.value.job.epoch || (packaged && !established) { FailSection(running.value); } else { running := None; }
    }

    /** The `catch` of `resumeOwned`. */
    method FailSection(section: Section)
      modifies this`running, this`paused
      ensures State() == Fail(old(State()), section)
    {
      paused := true;
      running := Some(section.(phase := Failed));
    }

    // -------------------------------------------------------------- generations

    method IsApiGenerationCurrent(n: Generation) returns (isCurrent: bool)
      ensures isCurrent <==> IsCurrent(ProcState(), GenState(), n)
    {
      isCurrent := !external && apiGeneration == Some(n) && n in generationChild && api == Some(generationChild[n])
                   && n !in revoked && generationChild[n] !in exited;
    }

    /** Whether the generation a worker is to be bound to can serve it. */
    method CanServe(n: Option<Generation>) returns (serves: bool)
      ensures serves <==> GenerationServes(State(), n)
    {
      if !packaged { return true; }
      if n == None { return false; }
      var isCurrent := IsApiGenerationCurrent(n.value);
      serves := readyApiGeneration == Some(n.value) && isCurrent;
    }

    /** The generation `n` serves: ready and current, its child alive and not being terminated. */
    ghost predicate Serves(n: Generation)
      reads this
    {
      ServesIn(State(), n)
    }

    /** Only a generation whose child lives and is not being stopped is marked; the current one is
        refused only when its child has exited or an external API was found. */
    method MarkApiGenerationReady(n: Generation) returns (marked: bool)
      requires Valid()
      modifies this
      ensures Did(OnStart(MarksReady(n)))
      ensures marked ==> Serves(n)
      ensures !marked ==> State() == old(State())
      ensures !marked && apiGeneration == Some(n) ==> external || (n in generationChild && generationChild[n] in exited)
    {
      hide Inv, RunTo;
      ghost var before := State();
      marked := IsApiGenerationCurrent(n);
      if marked { readyApiGeneration := Some(n); }
      Happened(before, OnStart(MarksReady(n)));
      ValidIsSafe();
      if marked { ServingGeneration(State(), n); }
    }

    /** Identity loss and `error` events: the generation is revoked, whoever claimed its recovery. */
    method ClaimApiRecovery(n: Generation)
      requires Valid() && n in generationChild
      modifies this
      ensures Did(OnStop(Claims(n)))
      ensures n in recovering && n in revoked && apiGeneration != Some(n) && readyApiGeneration != Some(n)
      ensures old(apiGeneration) != Some(n) ==> apiGeneration == old(apiGeneration) && readyApiGeneration == old(readyApiGeneration)
    {
      hide RunTo, Inv, ClaimRecovery;
      ghost var before := State();
      ClaimStretch(n);
      Happened(before, OnStop(Claims(n)));
      RunIsSafe(packaged, old(states), old(events), before);
      ClaimMeans(before, n);
    }

    // -------------------------------------------------------------- stopping

    /** Only children forked for the generation are terminated, and all of them that live; a later
        generation that is current keeps its handle, its worker and its readiness. */
    method StopDataServicesForApiGeneration(n: Generation)
      requires Valid() && n in generationChild
      modifies this
      ensures Did(OnStop(StopsFor(n)))
      ensures forall c | c in terminatingProcesses :: c in old(terminatingProcesses) || (c in forked && forked[c].generation == Some(n))
      ensures forall c | Alive(ProcState(), c) && forked[c].generation == Some(n) :: c in terminatingProcesses
      ensures apiGeneration != Some(n)
      ensures old(apiGeneration).Some? && old(apiGeneration) != Some(n) ==>
                && GenState() == old(GenState()) && api == old(api) && api.Some? && api.value !in terminatingProcesses
                && (workerApiGeneration == apiGeneration ==> ProcState() == old(ProcState()))
    {
      hide RunTo, StopApi, StopWorker, RevokeForStop, Inv;
      ghost var before := State();
      ValidIsSafe();
      var workerIsItsOwn := workerApiGeneration == Some(n);
      var apiIsItsOwn := api == Some(generationChild[n]);
      if workerIsItsOwn { StopWorkerProcess(); }
      if apiIsItsOwn { StopApiProcess(); }
      Happened(before, OnStop(StopsFor(n)));
      StopsExactly(before, n);
    }

    /** Afterwards every living child is being terminated, and no generation is current or ready. */
    method StopDataServicesOwned()
      requires Valid()
      modifies this
      ensures Did(OnStop(StopsAll))
      ensures forall c | Alive(ProcState(), c) :: c in terminatingProcesses
      ensures apiGeneration == None && readyApiGeneration == None
    {
      hide RunTo, StopAllChildren, Inv;
      ghost var before := State();
      ValidIsSafe();
      StopEveryProcess();
      Happened(before, OnStop(StopsAll));
      StopsEverything(before);
    }

    /** The end of `stopProcess` for a child, seen by everyone who awaits it: with proof of exit no
        handle names the child, without it the handle is kept; the pauses that waited learn which. */
    method FinishTermination(c: Child)
      requires Valid() && c in terminatingProcesses
      modifies this
      ensures Did(OnStop(Terminates(c)))
      ensures c in exited ==> api != Some(c) && worker != Some(c)
      ensures c !in exited ==> api == old(api) && worker == old(worker) && Alive(ProcState(), c)
      ensures forall d | Alive(ProcState(), d) :: Handle(ProcState(), forked[d].role) == Some(d)
      ensures pauses.Keys == old(pauses).Keys
      ensures forall i | i in pauses :: pauses[i] == if old(pauses)[i] == PauseWaits(c) then PauseSettled(c in exited) else old(pauses)[i]
      ensures old(Starting(State(), StoppingOld(c))) ==> Starting(State(), OldStopped(c in exited))
      ensures workerStartInFlight != Some(StoppingWorker(c)) && terminatingProcesses == old(terminatingProcesses) - {c}
    {
      hide RunTo, TerminationEnds, Inv;
      ghost var before := State();
      ValidIsSafe();
      EndStop(c);
      Happened(before, OnStop(Terminates(c)));
      TerminationMeans(before, c);
      ValidIsSafe();
    }

    // -------------------------------------------------------------- exits

    /** The current generation's exit, when nobody stopped it, drops the handle and revokes the
        generation in one step; every other exit event changes no generation and no handle. */
    method HandleApiExit(c: Child)
      requires Valid() && StopEnabled(State(), ObservesApi(c))
      modifies this
      ensures Did(OnStop(ObservesApi(c)))
      ensures old(apiGeneration) == forked[c].generation ==>
                api == None && apiGeneration == None && readyApiGeneration == None && forked[c].generation.value in revoked
      ensures old(apiGeneration) != forked[c].generation ==> apiGeneration == old(apiGeneration) && readyApiGeneration == old(readyApiGeneration)
      ensures old(apiGeneration).Some? && old(apiGeneration) != forked[c].generation ==> State() == old(State())
      ensures worker == old(worker) && terminatingProcesses == old(terminatingProcesses)
    {
      hide RunTo, Inv, ApiExit;
      ghost var before := State();
      LoseApi(c);
      Happened(before, OnStop(ObservesApi(c)));
      ValidIsSafe();
      RunIsSafe(packaged, old(states), old(events), before);
      ApiExitMeans(before, c);
    }

    method HandleWorkerExit(c: Child)
      requires Valid() && StopEnabled(State(), ObservesWorker(c))
      modifies this
      ensures Did(OnStop(ObservesWorker(c)))
      ensures worker == (if old(worker) == Some(c) && c !in terminatingProcesses then None else old(worker))
      ensures worker != old(worker) ==> workerApiGeneration == None
      ensures api == old(api) && apiGeneration == old(apiGeneration)
    {
      hide RunTo, Inv;
      ghost var before := State();
      ValidIsSafe();
      if worker == Some(c) && c !in terminatingProcesses {
        worker := None;
        if workerApiGeneration == forked[c].generation { workerApiGeneration := None; }
      }
      Happened(before, OnStop(ObservesWorker(c)));
      WorkerGenerationIsItsOwn(before);
    }

    method ForgetWorkerGeneration()
      requires Valid() && worker == None
      modifies this
      ensures Did(OnStop(ForgetsWorker)) && workerApiGeneration == None && ProcState() == old(ProcState())
    {
      hide RunTo, Inv;
      ghost var before := State();
      workerApiGeneration := None;
      Happened(before, OnStop(ForgetsWorker));
    }

    /** The operating system ends a child; only its handlers change anything else. */
    method ChildExits(c: Child)
      requires Valid() && c in forked
      modifies this
      ensures Did(OnStop(Exits(c))) && !Alive(ProcState(), c)
    {
      hide RunTo, Inv;
      ghost var before := State();
      exited := exited + {c};
      Happened(before, OnStop(Exits(c)));
    }

    // -------------------------------------------------------------- starting the API

    /** `startApi` up to its first await: it returns at once, and leaves everything as it is, exactly when
        the database check failed or the current generation's child lives; if it goes on, no generation is
        current or ready, and the old child is being terminated. */
    method StartApiProcess(databaseOk: bool)
      requires Valid() && StartEnabled(State(), BeginsApi(databaseOk))
      modifies this
      ensures Did(OnStart(BeginsApi(databaseOk)))
      ensures running.Some?
      ensures running.value.start == NoStart
              <==> !databaseOk || (old(apiGeneration).Some? && Running(old(State()), old(apiGeneration).value))
      ensures running.value.start == NoStart ==> State() == old(State())
      ensures running.value.start != NoStart ==>
                apiGeneration == None && readyApiGeneration == None && (api.Some? ==> api.value in terminatingProcesses)
    {
      hide RunTo, Inv, IsCurrent, BeginApi, Running;
      ghost var before := State();
      BeginApiStretch(databaseOk);
      Happened(before, OnStart(BeginsApi(databaseOk)));
      RunIsSafe(packaged, old(states), old(events), before);
      BeginApiMeans(before, databaseOk);
      ValidIsSafe();
    }

    method OldApiIsStopped()
      requires Valid() && StartEnabled(State(), OldStops)
      modifies this
      ensures Did(OnStart(OldStops))
      ensures running.Some? && running.value.start == (if old(running).value.start.ok then Detecting else NoStart)
      ensures running.value.start == Detecting ==> api == None && apiGeneration == None
    {
      hide RunTo, Inv;
      ghost var before := State();
      running := Some(running.value.(start := if running.value.start.ok then Detecting else NoStart));
      Happened(before, OnStart(OldStops));
      if running.value.start == Detecting || running.value.start == Resolving { NoApiWhileStarting(State()); }
    }

    /** An API that somebody else runs is never started over. */
    method DetectApi(externalApi: bool, databaseOk: bool)
      requires Valid() && StartEnabled(State(), Detects(externalApi, databaseOk))
      modifies this
      ensures Did(OnStart(Detects(externalApi, databaseOk)))
      ensures running.Some? && (running.value.start == Resolving ==> !external && api == None && apiGeneration == None)
      ensures running.value.start == if externalApi then NoStart else Resolving
      ensures external == if externalApi && !databaseOk then old(external) else externalApi
    {
      hide RunTo, Inv;
      ghost var before := State();
      if externalApi && !databaseOk {
        running := Some(running.value.(start := NoStart));
      } else {
        external := externalApi;
        running := Some(running.value.(start := if externalApi then NoStart else Resolving));
      }
      Happened(before, OnStart(Detects(externalApi, databaseOk)));
      if running.value.start == Detecting || running.value.start == Resolving { NoApiWhileStarting(State()); }
    }

    /** A forked child is the only living API child, and becomes the current generation in the same
        step: a generation never seen before, not ready yet. */
    method ForkApiProcess(databaseOk: bool, forks: bool)
      requires Valid() && StartEnabled(State(), ForksApi(databaseOk, forks))
      modifies this
      ensures Did(OnStart(ForksApi(databaseOk, forks)))
      ensures if databaseOk && forks then api.Some? && api.value !in old(forked) && forked.Keys == old(forked).Keys + {api.value}
              else ProcState() == old(ProcState()) && GenState() == old(GenState()) && running.Some? && running.value.start == NoStart
      ensures databaseOk && forks ==>
                && (forall c | Lives(ProcState(), c, Api) :: c == api.value)
                && apiGeneration.Some? && (forall n | n in old(generationChild) || n in revoked :: n < apiGeneration.value)
                && generationChild == old(generationChild)[apiGeneration.value := api.value] && readyApiGeneration == None
                && forked[api.value] == Fork(Api, apiGeneration)
                && running.Some? && running.value.start == Attaching(api.value, apiGeneration.value)
    {
      hide RunTo, Inv, ForkApi;
      ghost var before := State();
      ForkApiStretch(databaseOk, forks);
      Happened(before, OnStart(ForksApi(databaseOk, forks)));
      RunIsSafe(packaged, old(states), old(events), before);
      ForkApiMeans(before, databaseOk, forks);
      ValidIsSafe();
    }

    /** The tail of `startApi`: the generation stays current, with everything else as it was, exactly when the
        attachment and the database check succeeded and its child is still the API and alive; otherwise it
        is not current, and its child, if it is still the API, is being terminated; a start whose attachment
        failed waits for that. No other child is terminated. */
    method AttachApi(attached: bool, databaseOk: bool)
      requires Valid() && StartEnabled(State(), AttachesApi(attached, databaseOk))
      modifies this
      ensures Did(OnStart(AttachesApi(attached, databaseOk)))
      ensures var (c, n) := (old(running).value.start.child, old(running).value.start.generation);
              && (apiGeneration == Some(n) <==> attached && databaseOk && old(api) == Some(c) && Running(old(State()), n))
              && (apiGeneration == Some(n) ==>
                    && ProcState() == old(ProcState()) && GenState() == old(GenState()) && api == Some(c) && Alive(ProcState(), c)
                    && c !in terminatingProcesses)
              && (apiGeneration != Some(n) && api == Some(c) ==> c in terminatingProcesses)
              && terminatingProcesses - {c} <= old(terminatingProcesses) && running.Some?
              && running.value.start
                 == if old(api) == Some(c) && !(attached && Running(old(State()), n)) then StoppingNew(c, n) else NoStart
    {
      hide RunTo, Inv, ApiAttached, Running;
      ghost var before := State();
      AttachApiStretch(running.value.start.child, running.value.start.generation, attached, databaseOk);
      Happened(before, OnStart(AttachesApi(attached, databaseOk)));
      RunIsSafe(packaged, old(states), old(events), before);
      AttachMeans(before, before.flow.running.value.start.child, before.flow.running.value.start.generation, attached, databaseOk);
    }

    // -------------------------------------------------------------- starting the worker

    /** A start goes on exactly when it is unpaused, the database check succeeded, no worker is held and none
        is being started; packaged, only for a generation that serves. Whoever calls while one is in flight
        joins it. */
    method StartWorkerProcess(n: Option<Generation>, databaseOk: bool)
      requires Valid()
      modifies this
      ensures Did(OnStart(StartsWorker(n, databaseOk)))
      ensures workerStartInFlight
              == if old(workerStartInFlight) == None && !paused && worker == None && databaseOk && MayServe(old(State()), n)
                 then Some(Registering(n)) else old(workerStartInFlight)
      ensures ProcState() == old(ProcState()) && GenState() == old(GenState()) && paused == old(paused)
    {
      hide RunTo, Inv, StartWorker, MayServe;
      ghost var before := State();
      RequestWorker(n, databaseOk);
      Happened(before, OnStart(StartsWorker(n, databaseOk)));
      RunIsSafe(packaged, old(states), old(events), before);
      RequestMeans(before, n, databaseOk);
    }

    method RegisterWorker(ok: bool)
      requires Valid() && StartEnabled(State(), Registers(ok))
      modifies this
      ensures Did(OnStart(Registers(ok)))
      ensures workerStartInFlight.Some? <==> ok && !paused && !external
      ensures workerStartInFlight.Some? ==> workerStartInFlight.value == Locating(old(workerStartInFlight).value.generation) && worker == None
    {
      hide RunTo, Inv;
      ghost var before := State();
      if !ok || paused || external { workerStartInFlight := None; }
      else { workerStartInFlight := Some(Locating(workerStartInFlight.value.generation)); }
      Happened(before, OnStart(Registers(ok)));
      NoWorkerWhileStarting(State());
    }

    /** A worker is forked exactly when it is unpaused, the database check succeeded and, packaged, its
        generation still serves; it is the only living worker, bound to that generation. */
    method ForkWorkerProcess(databaseOk: bool, forks: bool)
      requires Valid() && StartEnabled(State(), ForksWorker(databaseOk, forks))
      modifies this
      ensures Did(OnStart(ForksWorker(databaseOk, forks)))
      ensures forked != old(forked)
              <==> !paused && databaseOk && forks && MayServe(old(State()), old(workerStartInFlight).value.generation)
      ensures forked != old(forked) ==>
                && worker.Some? && worker.value !in old(forked) && forked.Keys == old(forked).Keys + {worker.value}
                && (forall c | Lives(ProcState(), c, Worker) :: c == worker.value)
                && workerApiGeneration == old(workerStartInFlight).value.generation && forked[worker.value] == Fork(Worker, workerApiGeneration)
                && (packaged ==> workerApiGeneration.Some? && Serves(workerApiGeneration.value))
                && workerStartInFlight == Some(Offering(worker.value, workerApiGeneration))
      ensures forked == old(forked) ==> workerStartInFlight == None && ProcState() == old(ProcState())
      ensures GenState() == old(GenState()).(worker := workerApiGeneration)
    {
      hide RunTo, Inv, ForkWorker, MayServe, ServesIn;
      ghost var before := State();
      var n := workerStartInFlight.value.generation;
      ForkWorkerStretch(n, databaseOk, forks);
      Happened(before, OnStart(ForksWorker(databaseOk, forks)));
      RunIsSafe(packaged, old(states), old(events), before);
      ForkWorkerMeans(before, n, databaseOk, forks);
      ValidIsSafe();
    }

    /** The tail of `startWorkerOwned`: the worker is kept exactly when its attachment and the database check
        succeeded, it is alive and still held for its generation, nobody stops it and, packaged, that
        generation still serves. A start whose attachment failed stays in flight until its worker is gone. */
    method AttachWorker(attached: bool, databaseOk: bool)
      requires Valid() && StartEnabled(State(), AttachesWorker(attached, databaseOk))
      modifies this
      ensures Did(OnStart(AttachesWorker(attached, databaseOk)))
      ensures var (c, n) := (old(workerStartInFlight).value.child, old(workerStartInFlight).value.generation);
              && (worker == Some(c) && c !in terminatingProcesses
                  <==> attached && databaseOk && old(worker) == Some(c) && c !in exited && c !in old(terminatingProcesses)
                       && workerApiGeneration == n && MayServe(old(State()), n))
              && workerStartInFlight == (if old(worker) == Some(c) && !(attached && c !in exited && workerApiGeneration == n)
                                         then Some(StoppingWorker(c)) else None)
              && terminatingProcesses - {c} <= old(terminatingProcesses)
      ensures api == old(api) && worker == old(worker) && GenState() == old(GenState())
    {
      hide RunTo, Inv, GenerationServes, MayServe, WorkerAttached;
      ghost var before := State();
      RunIsSafe(packaged, states, events, before);
      AttachWorkerStretch(workerStartInFlight.value.child, workerStartInFlight.value.generation, attached, databaseOk);
      Happened(before, OnStart(AttachesWorker(attached, databaseOk)));
      WorkerAttachedMeans(before, before.flow.starting.value.child, before.flow.starting.value.generation, attached, databaseOk);
    }

    // -------------------------------------------------------------- calls

    method StartAllServices()
      requires Valid()
      modifies this
      ensures Did(OnCall(CallsStartAll)) && lifecycleQueue == old(lifecycleQueue) + [StartAll]
    {
      hide RunTo, Inv;
      ghost var before := State();
      lifecycleQueue := lifecycleQueue + [StartAll];
      Happened(before, OnCall(CallsStartAll));
    }

    method QueueOther()
      requires Valid()
      modifies this
      ensures Did(OnCall(QueuesOther)) && lifecycleQueue == old(lifecycleQueue) + [Other]
    {
      hide RunTo, Inv;
      ghost var before := State();
      lifecycleQueue := lifecycleQueue + [Other];
      Happened(before, OnCall(QueuesOther));
    }

    /** A resume remembers the intent at its call; only a later `pause` supersedes it. */
    method ResumeTwin()
      requires Valid()
      modifies this
      ensures Did(OnCall(CallsResume)) && lifecycleQueue == old(lifecycleQueue) + [Resume(pauseIntentEpoch)]
    {
      hide RunTo, Inv;
      ghost var before := State();
      lifecycleQueue := lifecycleQueue + [Resume(pauseIntentEpoch)];
      Happened(before, OnCall(CallsResume));
    }

    /** Paused from here on: every resume waiting or running is superseded, and every living worker is
        being terminated, which this pause awaits. */
    method PauseTwin() returns (pause: int)
      requires Valid()
      modifies this
      ensures Did(OnCall(CallsPause)) && paused && pause !in old(pauses)
      ensures forall e: nat | Resume(e) in lifecycleQueue :: e < pauseIntentEpoch
      ensures running.Some? && running.value.job.Resume? ==> running.value.job.epoch < pauseIntentEpoch
      ensures forall c | Lives(ProcState(), c, Worker) :: c in terminatingProcesses && pause in pauses && pauses[pause] == PauseWaits(c)
      ensures worker == None ==> pause in pauses && pauses[pause] == PauseSettled(true)
    {
      hide RunTo, Inv, CallPause;
      ghost var before := State();
      pause := PauseStretch();
      Happened(before, OnCall(CallsPause));
      RunIsSafe(packaged, old(states), old(events), before);
      PauseMeans(before);
    }

    /** When a pause returns, no worker lives: unless a `startAll` was waiting when it was called, or
        work was asked for since. */
    method ReturnFromPause(pause: int)
      requires Valid() && CallEnabled(State(), PauseReturns(pause))
      modifies this
      ensures Did(OnCall(PauseReturns(pause))) && ProcState() == old(ProcState()) && pause !in pauses
      ensures forall i: nat | PausedFrom(packaged, states, events, i, |old(events)|) && states[i].flow.nextPause == pause ::
                paused && worker == None && forall c | Alive(ProcState(), c) :: forked[c].role == Api
    {
      hide RunTo, Inv, IsRun;
      ghost var before := State();
      RunIsSafe(packaged, states, events, before);
      pauses := pauses - {pause};
      Happened(before, OnCall(PauseReturns(pause)));
      forall i: nat | PausedFrom(packaged, states, events, i, |old(events)|) && states[i].flow.nextPause == pause
        ensures paused && worker == None && forall c | Alive(ProcState(), c) :: forked[c].role == Api
      {
        ReturnMeans(packaged, states, events, i, |old(events)|, pause);
      }
    }

    /** Without proof that the worker has exited, `pause` stops every service before it throws. */
    method ContainFromPause(pause: int)
      requires Valid() && CallEnabled(State(), PauseContains(pause))
      modifies this
      ensures Did(OnCall(PauseContains(pause))) && pause !in pauses
      ensures forall c | Alive(ProcState(), c) :: c in terminatingProcesses
      ensures apiGeneration == None && readyApiGeneration == None
    {
      hide RunTo, Inv, PauseEnds;
      ghost var before := State();
      ContainStretch(pause);
      Happened(before, OnCall(PauseContains(pause)));
      RunIsSafe(packaged, old(states), old(events), before);
      ContainMeans(before, pause);
    }

    // -------------------------------------------------------------- sections

    /** The next section of the serial queue. A superseded resume leaves the manager unpaused only if a
        worker handle makes it refuse at once; packaged, a `startAll` runs only when no child lives. */
    method BeginSection(blocked: bool)
      requires Valid() && CallEnabled(State(), Begins(blocked))
      modifies this
      ensures Did(OnCall(Begins(blocked)))
      ensures var job := old(lifecycleQueue)[0];
              && lifecycleQueue == old(lifecycleQueue)[1..] && (running.Some? ==> running.value.job == job)
              && (job.Resume? && job.epoch != pauseIntentEpoch ==> (paused <==> old(paused) || worker == None))
              && (job == StartAll && running.Some? ==> !paused && (packaged ==> forall c :: !Alive(ProcState(), c)))
              && (running == None ==> paused == old(paused))
              && (running.Some? ==> running.value.start == NoStart && (running.value.phase == Body <==> !job.Resume?))
              && (job.Resume? && running.Some? ==> (paused <==> old(paused) || packaged || running.value.phase == Failed))
              && (job.Resume? ==> (running.Some? <==> worker == None))
              && (job.Resume? && running.Some? ==> (running.value.phase == Preparing <==> job.epoch == pauseIntentEpoch))
              && (job == StartAll ==> (running.Some? <==> !packaged || (!blocked && api == None && worker == None)))
              && (job == Other ==> running.Some? && paused == old(paused))
      ensures ProcState() == old(ProcState()) && GenState() == old(GenState())
    {
      hide RunTo, Inv, Begin;
      ghost var before := State();
      BeginStretch(blocked);
      Happened(before, OnCall(Begins(blocked)));
      RunIsSafe(packaged, old(states), old(events), before);
      BeginMeans(before, blocked);
    }

    /** The last intent check of a resume, `paused = false` and the start of the worker are one step, so
        the manager is unpaused by it exactly when no pause has been called since the resume. */
    method EnableWorker(n: Option<Generation>, databaseOk: bool)
      requires Valid() && CallEnabled(State(), Enables(n, databaseOk))
      modifies this
      ensures Did(OnCall(Enables(n, databaseOk)))
      ensures running.Some? && (!paused <==> running.value.job == Resume(pauseIntentEpoch)) && (paused <==> running.value.phase == Failed)
      ensures workerStartInFlight
              == if !paused && old(workerStartInFlight) == None && worker == None && databaseOk && MayServe(old(State()), n)
                 then Some(Registering(n)) else old(workerStartInFlight)
      ensures ProcState() == old(ProcState()) && GenState() == old(GenState())
    {
      hide RunTo, Inv, Enable, MayServe;
      ghost var before := State();
      EnableStretch(n, databaseOk);
      Happened(before, OnCall(Enables(n, databaseOk)));
      RunIsSafe(packaged, old(states), old(events), before);
      EnableMeans(before, n, databaseOk);
    }

    /** A resume succeeds exactly when no pause was called since and, packaged, its worker is the one living
        worker, bound to a generation that serves. Otherwise the manager is paused. */
    method ConcludeResume(n: Option<Generation>)
      requires Valid() && CallEnabled(State(), Concludes(n))
      modifies this
      ensures Did(OnCall(Concludes(n)))
      ensures running == None <==> old(running).value.job == Resume(pauseIntentEpoch) && (packaged ==> Established(old(State()), n))
      ensures running == None ==> !paused
      ensures running.Some? ==> paused && running.value.phase == Failed
      ensures ProcState() == old(ProcState()) && GenState() == old(GenState())
    {
      hide RunTo, Inv, Conclude, Established;
      ghost var before := State();
      ConcludeStretch(n);
      Happened(before, OnCall(Concludes(n)));
      RunIsSafe(packaged, old(states), old(events), before);
      ConcludeMeans(before, n);
    }

    /** The `catch` of `resumeOwned`. */
    method ThrowInResume()
      requires Valid() && CallEnabled(State(), Throws)
      modifies this
      ensures Did(OnCall(Throws)) && paused && running.Some? && running.value.phase == Failed
      ensures ProcState() == old(ProcState()) && GenState() == old(GenState())
    {
      hide RunTo, Inv;
      ghost var before := State();
      FailSection(running.value);
      Happened(before, OnCall(Throws));
    }

    method EndSection()
      requires Valid() && CallEnabled(State(), Ends)
      modifies this
      ensures Did(OnCall(Ends)) && running == None && paused == old(paused)
    {
      hide RunTo, Inv;
      ghost var before := State();
      running := None;
      Happened(before, OnCall(Ends));
    }
  }
}
