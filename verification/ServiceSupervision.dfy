/** The desktop service manager as a state machine: lifecycle sections run one at a time, while
    `pause`, timers, child exits and terminations happen between any two of their awaits. */
module ServiceSupervision {
  import opened Identifiers

  type Generation = int

  datatype Role = Api | Worker

  /** A forked child; `generation` is the API generation it was forked for. */
  datatype Fork = Fork(role: Role, generation: Option<Generation>)

  /** Child handles, and the children whose termination is in progress. */
  datatype Procs = Procs(
    api: Option<Child>, worker: Option<Child>,
    forked: map<Child, Fork>, nextChild: Child,
    exited: set<Child>, terminating: set<Child>)

  /** API generations; `revoked` are those whose controller has been aborted. */
  datatype Gens = Gens(
    current: Option<Generation>, ready: Option<Generation>, worker: Option<Generation>,
    children: map<Generation, Child>, next: Generation,
    revoked: set<Generation>, claimed: set<Generation>, external: bool)

  /** Where `startApi` stands. */
  datatype ApiStart = NoStart | StoppingOld(child: Child) | OldStopped(ok: bool) | Detecting | Resolving | Attaching(child: Child, generation: Generation)
                    | StoppingNew(child: Child, generation: Generation)

  /** Where `startWorkerOwned` stands. */
  datatype WorkerStart = Registering(generation: Option<Generation>) | Locating(generation: Option<Generation>)
                       | Offering(child: Child, generation: Option<Generation>) | StoppingWorker(child: Child)

  datatype Job = StartAll | Resume(epoch: nat) | Other

  /** A resume prepares, enables the worker, or has failed and cleans up; other jobs just run. */
  datatype Phase = Body | Preparing | Enabled | Failed

  datatype Section = Section(job: Job, phase: Phase, start: ApiStart)

  datatype Pause = PauseWaits(child: Child) | PauseSettled(ok: bool)

  datatype Flow = Flow(
    packaged: bool, paused: bool, epoch: nat,
    queue: seq<Job>, running: Option<Section>,
    starting: Option<WorkerStart>,
    pauses: map<int, Pause>, nextPause: int)

  datatype Services = Services(procs: Procs, gens: Gens, flow: Flow)

  function Empty(packaged: bool): Services {
    Services(Procs(None, None, map[], 0, {}, {}),
             Gens(None, None, None, map[], 0, {}, {}, false),
             Flow(packaged, false, 0, [], None, None, map[], 0))
  }

  // ---------------------------------------------------------------- generations

  /** `revokeApiGeneration`. */
  function Revoke(g: Gens, expected: Option<Generation>): Gens {
    if g.current == None || (expected.Some? && g.current != expected) then g
    else g.(revoked := g.revoked + {g.current.value}, current := None, ready := if g.ready == g.current then None else g.ready)
  }

  /** `isApiGenerationCurrent`. */
  predicate IsCurrent(p: Procs, g: Gens, n: Generation) {
    && !g.external && g.current == Some(n) && n in g.children && p.api == Some(g.children[n])
    && n !in g.revoked && g.children[n] !in p.exited
  }

  /** `isApiGenerationReady`. */
  predicate IsReady(p: Procs, g: Gens, n: Generation) { g.ready == Some(n) && IsCurrent(p, g, n) }

  /** `markApiGenerationReady`. */
  function MarkReady(p: Procs, g: Gens, n: Generation): Gens {
    if IsCurrent(p, g, n) then g.(ready := Some(n)) else g
  }

  // ---------------------------------------------------------------- stopping

  /** `stopProcess` of the API: join a termination in progress, or revoke and begin one. */
  function RevokeForStop(p: Procs, g: Gens): Gens {
    if p.api == None || p.api.value in p.terminating then g
    else if g.current.Some? && g.current.value in g.children && g.children[g.current.value] == p.api.value then Revoke(g, g.current)
    else g
  }

  function StopApi(p: Procs): Procs {
    if p.api == None then p else p.(terminating := p.terminating + {p.api.value})
  }

  /** `stopProcess` of the worker. */
  function StopWorker(p: Procs): Procs {
    if p.worker == None then p else p.(terminating := p.terminating + {p.worker.value})
  }

  /** `stopDataServicesOwned`, up to its await. */
  function StopAllChildren(s: Services): Services {
    var p := StopWorker(s.procs);
    s.(procs := StopApi(p), gens := RevokeForStop(p, s.gens))
  }

  /** `stopDataServicesForApiGeneration`, up to its await. */
  function StopForGeneration(s: Services, n: Generation): Services
    requires n in s.gens.children
  {
    var p := if s.gens.worker == Some(n) then StopWorker(s.procs) else s.procs;
    if p.api == Some(s.gens.children[n])
    then s.(procs := StopApi(p), gens := RevokeForStop(p, s.gens))
    else s.(procs := p)
  }

  /** A termination ends: with proof of exit the handle is dropped, without it is kept. */
  function EndTermination(p: Procs, c: Child): Procs {
    var q := p.(terminating := p.terminating - {c});
    if c !in p.exited then q
    else q.(api := if p.api == Some(c) then None else p.api, worker := if p.worker == Some(c) then None else p.worker)
  }

  /** Whoever awaited the termination learns its outcome. */
  function SettleStart(a: ApiStart, c: Child, ok: bool): ApiStart {
    if a == StoppingOld(c) then OldStopped(ok)
    else if a.StoppingNew? && a.child == c then NoStart
    else a
  }

  function Settle(f: Flow, c: Child, ok: bool): Flow {
    f.(running := if f.running.Some? then Some(f.running.value.(start := SettleStart(f.running.value.start, c, ok))) else None,
       starting := if f.starting == Some(StoppingWorker(c)) then None else f.starting,
       pauses := map i | i in f.pauses :: if f.pauses[i] == PauseWaits(c) then PauseSettled(ok) else f.pauses[i])
  }

  /** A failed or dropped `startApi` also revokes the generation it made. */
  function RevokeAttempt(f: Flow, g: Gens, c: Child): Gens {
    if f.running.Some? && f.running.value.start.StoppingNew? && f.running.value.start.child == c
    then Revoke(g, Some(f.running.value.start.generation)) else g
  }

  function TerminationEnds(s: Services, c: Child): Services {
    var ok := c in s.procs.exited;
    var g := RevokeAttempt(s.flow, s.gens, c);
    Services(EndTermination(s.procs, c),
             if ok && s.procs.worker == Some(c) then g.(worker := None) else g,
             Settle(s.flow, c, ok))
  }

  // ---------------------------------------------------------------- exits

  /** The API child's exit handler. */
  function ApiExit(s: Services, c: Child): Services
    requires c in s.procs.forked && s.procs.forked[c].generation.Some?
  {
    var n := s.procs.forked[c].generation.value;
    if s.procs.api != Some(c) || c in s.procs.terminating || n in s.gens.claimed then s
    else s.(procs := s.procs.(api := None), gens := Revoke(s.gens.(claimed := s.gens.claimed + {n}), Some(n)))
  }

  /** The worker child's exit handler. */
  function WorkerExit(s: Services, c: Child): Services
    requires c in s.procs.forked
  {
    if s.procs.worker != Some(c) || c in s.procs.terminating then s
    else s.(procs := s.procs.(worker := None),
            gens := s.gens.(worker := if s.gens.worker == s.procs.forked[c].generation then None else s.gens.worker))
  }

  /** Identity loss and `error` events claim the generation's recovery and revoke it. */
  function ClaimRecovery(s: Services, n: Generation): Services {
    if n in s.gens.claimed then s
    else s.(gens := Revoke(s.gens.(claimed := s.gens.claimed + {n}), Some(n)))
  }

  // ---------------------------------------------------------------- starting the API

  predicate Idle(s: Services) { s.flow.running.Some? && s.flow.running.value.start == NoStart }

  function SetStart(f: Flow, a: ApiStart): Flow
    requires f.running.Some?
  {
    f.(running := Some(f.running.value.(start := a)))
  }

  function BeginApi(s: Services, databaseOk: bool): Services
    requires s.flow.running.Some?
  {
    if !databaseOk || (s.gens.current.Some? && IsCurrent(s.procs, s.gens, s.gens.current.value)) then s
    else
      var t := s.(gens := Revoke(s.gens, None));
      if t.procs.api.Some?
      then t.(procs := StopApi(t.procs), flow := SetStart(s.flow, StoppingOld(t.procs.api.value)))
      else t.(flow := SetStart(s.flow, Detecting))
  }

  predicate Starting(s: Services, a: ApiStart) { s.flow.running.Some? && s.flow.running.value.start == a }

  function OldApiStopped(s: Services, ok: bool): Services
    requires s.flow.running.Some?
  {
    s.(flow := SetStart(s.flow, if ok then Detecting else NoStart))
  }

  function ApiDetected(s: Services, external: bool, databaseOk: bool): Services
    requires s.flow.running.Some?
  {
    if external && !databaseOk then s.(flow := SetStart(s.flow, NoStart))
    else s.(gens := s.gens.(external := external), flow := SetStart(s.flow, if external then NoStart else Resolving))
  }

  function ForkApi(s: Services, databaseOk: bool, forks: bool): Services
    requires s.flow.running.Some?
  {
    if !databaseOk || !forks then s.(flow := SetStart(s.flow, NoStart))
    else
      var (c, n) := (s.procs.nextChild, s.gens.next + 1);
      Services(s.procs.(api := Some(c), forked := s.procs.forked[c := Fork(Api, Some(n))], nextChild := c + 1),
               s.gens.(current := Some(n), children := s.gens.children[n := c], next := n),
               SetStart(s.flow, Attaching(c, n)))
  }

  function ApiAttached(s: Services, c: Child, n: Generation, attached: bool, databaseOk: bool): Services
    requires s.flow.running.Some?
  {
    if !attached || c in s.procs.exited || s.procs.api != Some(c) || !IsCurrent(s.procs, s.gens, n) then
      if s.procs.api == Some(c)
      then Services(StopApi(s.procs), RevokeForStop(s.procs, s.gens), SetStart(s.flow, StoppingNew(c, n)))
      else s.(gens := Revoke(s.gens, Some(n)), flow := SetStart(s.flow, NoStart))
    else if !databaseOk
    then Services(StopApi(s.procs), RevokeForStop(s.procs, s.gens), SetStart(s.flow, NoStart))
    else s.(flow := SetStart(s.flow, NoStart))
  }

  // ---------------------------------------------------------------- starting the worker

  /** `startWorker`: join the operation in flight, or run the prechecks of `startWorkerOwned`. */
  function StartWorker(s: Services, n: Option<Generation>, databaseOk: bool): Services {
    if s.flow.starting.Some? || s.procs.worker.Some? || s.flow.paused || !databaseOk || !GenerationServes(s, n) then s
    else s.(flow := s.flow.(starting := Some(Registering(n))))
  }

  /** A packaged worker needs a ready API generation. */
  predicate GenerationServes(s: Services, n: Option<Generation>) {
    !s.flow.packaged || (n.Some? && IsReady(s.procs, s.gens, n.value))
  }

  function SetWorkerStart(f: Flow, w: Option<WorkerStart>): Flow { f.(starting := w) }

  function WorkerRegistered(s: Services, n: Option<Generation>, ok: bool): Services {
    if !ok || s.flow.paused || s.gens.external then s.(flow := SetWorkerStart(s.flow, None))
    else s.(flow := SetWorkerStart(s.flow, Some(Locating(n))))
  }

  /** The last checks and the fork are one step. */
  function ForkWorker(s: Services, n: Option<Generation>, databaseOk: bool, forks: bool): Services {
    if s.flow.paused || !databaseOk || !GenerationServes(s, n) || !forks then s.(flow := SetWorkerStart(s.flow, None))
    else
      var c := s.procs.nextChild;
      Services(s.procs.(worker := Some(c), forked := s.procs.forked[c := Fork(Worker, n)], nextChild := c + 1),
               s.gens.(worker := n),
               SetWorkerStart(s.flow, Some(Offering(c, n))))
  }

  function WorkerAttached(s: Services, c: Child, n: Option<Generation>, attached: bool, databaseOk: bool): Services {
    if !attached || c in s.procs.exited || s.procs.worker != Some(c) || s.gens.worker != n then
      if s.procs.worker == Some(c)
      then s.(procs := StopWorker(s.procs), flow := SetWorkerStart(s.flow, Some(StoppingWorker(c))))
      else s.(flow := SetWorkerStart(s.flow, None))
    else
      s.(procs := if databaseOk && GenerationServes(s, n) then s.procs else StopWorker(s.procs),
         flow := SetWorkerStart(s.flow, None))
  }

  // ---------------------------------------------------------------- pause and resume

  /** `pause` up to its await. */
  function CallPause(s: Services): Services {
    var pause := if s.procs.worker.Some? then PauseWaits(s.procs.worker.value) else PauseSettled(true);
    s.(procs := StopWorker(s.procs),
       flow := s.flow.(epoch := s.flow.epoch + 1, paused := true,
                       pauses := s.flow.pauses[s.flow.nextPause := pause], nextPause := s.flow.nextPause + 1))
  }

  predicate PauseAt(f: Flow, i: int, ok: bool) { i in f.pauses && f.pauses[i] == PauseSettled(ok) }

  /** `pause` returns, or contains every service before it throws. */
  function PauseEnds(s: Services, i: int): Services
    requires i in s.flow.pauses
  {
    var t := s.(flow := s.flow.(pauses := s.flow.pauses - {i}));
    if s.flow.pauses[i] == PauseSettled(false) then StopAllChildren(t) else t
  }

  function Fail(s: Services, section: Section): Services {
    s.(flow := s.flow.(paused := true, running := Some(section.(phase := Failed))))
  }

  /** The next section begins; `blocked` are the other reasons for which `startAll` refuses. */
  function Begin(s: Services, blocked: bool): Services
    requires s.flow.queue != []
  {
    var job := s.flow.queue[0];
    var t := s.(flow := s.flow.(queue := s.flow.queue[1..]));
    match job
    case Other => t.(flow := t.flow.(running := Some(Section(Other, Body, NoStart))))
    case StartAll =>
      if s.flow.packaged && (blocked || s.procs.api.Some? || s.procs.worker.Some?) then t
      else t.(flow := t.flow.(running := Some(Section(StartAll, Body, NoStart)), paused := false))
    case Resume(e) =>
      if s.procs.worker.Some? then t
      else if s.flow.epoch != e then Fail(t, Section(job, Failed, NoStart))
      else t.(flow := t.flow.(running := Some(Section(job, Preparing, NoStart)), paused := s.flow.paused || s.flow.packaged))
  }

  predicate InPhase(f: Flow, phase: Phase) { f.running.Some? && f.running.value.phase == phase && f.running.value.start == NoStart }

  /** The last intent check of a resume, `paused = false` and the call of `startWorker`. */
  function Enable(s: Services, n: Option<Generation>, databaseOk: bool): Services
    requires InPhase(s.flow, Preparing) && s.flow.running.value.job.Resume?
  {
    var section := s.flow.running.value;
    if s.flow.epoch != section.job.epoch then Fail(s, section)
    else StartWorker(s.(flow := s.flow.(paused := false, running := Some(section.(phase := Enabled)))), n, databaseOk)
  }

  /** After `startWorker` a resume checks its intent and its worker once more. */
  function Conclude(s: Services, n: Option<Generation>): Services
    requires InPhase(s.flow, Enabled) && s.flow.running.value.job.Resume?
  {
    var established := GenerationServes(s, n) && s.procs.worker.Some? && s.procs.worker.value !in s.procs.exited && s.gens.worker == n;
    if s.flow.epoch != s.flow.running.value.job.epoch || (s.flow.packaged && !established)
    then Fail(s, s.flow.running.value)
    else s.(flow := s.flow.(running := None))
  }

  // ---------------------------------------------------------------- runs

  datatype CallEvent =
    | CallsStartAll | CallsResume | CallsPause
    | QueuesOther                                       // stopAll, restarts and containment
    | Begins(blocked: bool) | Ends | Throws
    | Enables(generation: Option<Generation>, databaseOk: bool) | Concludes(generation: Option<Generation>)
    | PauseReturns(pause: int) | PauseContains(pause: int)

  datatype StartEvent =
    | BeginsApi(databaseOk: bool) | OldStops | Detects(external: bool, databaseOk: bool)
    | ForksApi(databaseOk: bool, forks: bool) | AttachesApi(attached: bool, databaseOk: bool) | MarksReady(owned: Generation)
    | StartsWorker(generation: Option<Generation>, databaseOk: bool) | Registers(ok: bool)
    | ForksWorker(databaseOk: bool, forks: bool) | AttachesWorker(attached: bool, databaseOk: bool)

  datatype StopEvent =
    | StopsAll | StopsFor(failed: Generation) | Terminates(child: Child) | Claims(lost: Generation)
    | ForgetsWorker | Exits(child: Child) | ObservesApi(child: Child) | ObservesWorker(child: Child)

  datatype Event = OnCall(call: CallEvent) | OnStart(start: StartEvent) | OnStop(stop: StopEvent)

  predicate CallEnabled(s: Services, e: CallEvent) {
    match e
    case CallsStartAll => true
    case CallsResume => true
    case CallsPause => true
    case QueuesOther => true
    case Begins(_) => s.flow.running == None && s.flow.queue != []
    case Ends => InPhase(s.flow, Body) || InPhase(s.flow, Failed)
    case Throws => (InPhase(s.flow, Preparing) || InPhase(s.flow, Enabled)) && s.flow.running.value.job.Resume?
    case Enables(_, _) => InPhase(s.flow, Preparing) && s.flow.running.value.job.Resume?
    case Concludes(_) => InPhase(s.flow, Enabled) && s.flow.running.value.job.Resume? && s.flow.starting == None
    case PauseReturns(i) => PauseAt(s.flow, i, true)
    case PauseContains(i) => PauseAt(s.flow, i, false)
  }

  function CallApply(s: Services, e: CallEvent): Services
    requires CallEnabled(s, e)
  {
    match e
    case CallsStartAll => s.(flow := s.flow.(queue := s.flow.queue + [StartAll]))
    case CallsResume => s.(flow := s.flow.(queue := s.flow.queue + [Resume(s.flow.epoch)]))
    case QueuesOther => s.(flow := s.flow.(queue := s.flow.queue + [Other]))
    case CallsPause => CallPause(s)
    case Begins(blocked) => Begin(s, blocked)
    case Ends => s.(flow := s.flow.(running := None))
    case Throws => Fail(s, s.flow.running.value)
    case Enables(n, databaseOk) => Enable(s, n, databaseOk)
    case Concludes(n) => Conclude(s, n)
    case PauseReturns(i) => PauseEnds(s, i)
    case PauseContains(i) => PauseEnds(s, i)
  }

  predicate StartEnabled(s: Services, e: StartEvent) {
    match e
    case BeginsApi(_) => Idle(s)
    case OldStops => s.flow.running.Some? && s.flow.running.value.start.OldStopped?
    case Detects(_, _) => Starting(s, Detecting)
    case ForksApi(_, _) => Starting(s, Resolving)
    case AttachesApi(_, _) => s.flow.running.Some? && s.flow.running.value.start.Attaching?
    case MarksReady(_) => true
    case StartsWorker(_, _) => true
    case Registers(_) => s.flow.starting.Some? && s.flow.starting.value.Registering?
    case ForksWorker(_, _) => s.flow.starting.Some? && s.flow.starting.value.Locating?
    case AttachesWorker(_, _) => s.flow.starting.Some? && s.flow.starting.value.Offering?
  }

  function StartApply(s: Services, e: StartEvent): Services
    requires StartEnabled(s, e)
  {
    match e
    case BeginsApi(databaseOk) => BeginApi(s, databaseOk)
    case OldStops => OldApiStopped(s, s.flow.running.value.start.ok)
    case Detects(external, databaseOk) => ApiDetected(s, external, databaseOk)
    case ForksApi(databaseOk, forks) => ForkApi(s, databaseOk, forks)
    case AttachesApi(attached, databaseOk) =>
      ApiAttached(s, s.flow.running.value.start.child, s.flow.running.value.start.generation, attached, databaseOk)
    case MarksReady(n) => s.(gens := MarkReady(s.procs, s.gens, n))
    case StartsWorker(n, databaseOk) => StartWorker(s, n, databaseOk)
    case Registers(ok) => WorkerRegistered(s, s.flow.starting.value.generation, ok)
    case ForksWorker(databaseOk, forks) => ForkWorker(s, s.flow.starting.value.generation, databaseOk, forks)
    case AttachesWorker(attached, databaseOk) =>
      WorkerAttached(s, s.flow.starting.value.child, s.flow.starting.value.generation, attached, databaseOk)
  }

  predicate StopEnabled(s: Services, e: StopEvent) {
    match e
    case StopsAll => true
    case StopsFor(n) => n in s.gens.children
    case Terminates(c) => c in s.procs.terminating
    case Claims(n) => n in s.gens.children
    case ForgetsWorker => s.procs.worker == None
    case Exits(c) => c in s.procs.forked
    case ObservesApi(c) => c in s.procs.exited && c in s.procs.forked && s.procs.forked[c].role == Api && s.procs.forked[c].generation.Some?
    case ObservesWorker(c) => c in s.procs.exited && c in s.procs.forked && s.procs.forked[c].role == Worker
  }

  function StopApply(s: Services, e: StopEvent): Services
    requires StopEnabled(s, e)
  {
    match e
    case StopsAll => StopAllChildren(s)
    case StopsFor(n) => StopForGeneration(s, n)
    case Terminates(c) => TerminationEnds(s, c)
    case Claims(n) => ClaimRecovery(s, n)
    case ForgetsWorker => s.(gens := s.gens.(worker := None))
    case Exits(c) => s.(procs := s.procs.(exited := s.procs.exited + {c}))
    case ObservesApi(c) => ApiExit(s, c)
    case ObservesWorker(c) => WorkerExit(s, c)
  }

  predicate CanHappen(s: Services, e: Event) {
    match e
    case OnCall(c) => CallEnabled(s, c)
    case OnStart(c) => StartEnabled(s, c)
    case OnStop(c) => StopEnabled(s, c)
  }

  function Apply(s: Services, e: Event): Services
    requires CanHappen(s, e)
  {
    match e
    case OnCall(c) => CallApply(s, c)
    case OnStart(c) => StartApply(s, c)
    case OnStop(c) => StopApply(s, c)
  }

  ghost predicate IsRun(packaged: bool, states: seq<Services>, events: seq<Event>) {
    && |states| == |events| + 1
    && states[0] == Empty(packaged)
    && forall i | 0 <= i < |events| :: CanHappen(states[i], events[i]) && states[i + 1] == Apply(states[i], events[i])
  }
}
