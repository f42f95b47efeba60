/** The managed CockroachDB server: serialised starts and stops, one child, and start results
    that stay valid only while their own child lives and has not been stopped. */
module CockroachSupervision {
  import opened Identifiers

  type Directory = int

  /** The identity of a child that proved to own the endpoint. */
  datatype Authority = Authority(child: Child, generation: nat, dataDir: Directory, revoked: bool)

  datatype StartResult = Preexisting | Managed(generation: nat, dataDir: Directory)

  /** What follows once a child has been proven to have exited. */
  datatype Then = Report | Spawn(dataDir: Directory) | Rethrow | Stopped

  datatype Section = Probing | Waiting(child: Child, dataDir: Directory) | Terminating(child: Child, next: Then) | Ready(next: Then)

  datatype Job = Start | Stop

  datatype Server = Server(
    process: Option<Child>,
    authority: Option<Authority>,
    lifecycleGeneration: nat,
    spawned: map<Child, nat>,          // each child with the generation it was spawned under
    nextChild: Child,
    exited: set<Child>,
    queue: seq<Job>,
    running: Option<Section>,
    results: set<StartResult>,         // history: results returned,
    revoked: set<nat>,                 // generations revoked by `stop`,
    losses: seq<nat>)                  // and calls of the authority-loss handler

  const Empty: Server := Server(None, None, 0, map[], 0, {}, [], None, {}, {}, [])

  // ---------------------------------------------------------------- checks

  /** `isAuthorityCurrent`; `proof` is what the pid and URL files say. */
  predicate AuthorityCurrent(s: Server, a: Authority, proof: bool) {
    s.authority == Some(a) && s.process.Some? && s.process.value == a.child && !a.revoked && a.child !in s.exited && proof
  }

  /** `isManagedStartCurrent`. */
  predicate StartCurrent(s: Server, r: StartResult, proof: bool) {
    && s.authority.Some? && r.Managed? && !s.authority.value.revoked
    && r.generation == s.authority.value.generation && r.dataDir == s.authority.value.dataDir
    && AuthorityCurrent(s, s.authority.value, proof)
  }

  function ResultFor(a: Authority): StartResult { Managed(a.generation, a.dataDir) }

  // ---------------------------------------------------------------- steps

  predicate Holds(p: Option<Child>, c: Child) { p.Some? && p.value == c }

  predicate OwnedBy(a: Option<Authority>, c: Child) { a.Some? && a.value.child == c }

  /** `clearProvenExit`. */
  function Clear(s: Server, c: Child): Server {
    s.(process := if Holds(s.process, c) then None else s.process, authority := if OwnedBy(s.authority, c) then None else s.authority)
  }

  /** The child's exit handler. */
  function ObserveExit(s: Server, c: Child): Server {
    var cleared := Clear(s, c);
    cleared.(
      lifecycleGeneration := if Holds(s.process, c) || OwnedBy(s.authority, c) then s.lifecycleGeneration + 1 else s.lifecycleGeneration,
      losses := if OwnedBy(s.authority, c) && !s.authority.value.revoked then s.losses + [s.authority.value.generation] else s.losses)
  }

  /** The next section begins: a start probes the port, a stop revokes before it terminates. */
  function Begin(s: Server): Server
    requires s.queue != []
  {
    var t := s.(queue := s.queue[1..]);
    if s.queue[0] == Start then t.(running := Some(Probing))
    else if s.process == None then t
    else
      var c := s.process.value;
      t.(authority := if OwnedBy(s.authority, c) then Some(s.authority.value.(revoked := true)) else s.authority,
         revoked := if OwnedBy(s.authority, c) then s.revoked + {s.authority.value.generation} else s.revoked,
         lifecycleGeneration := s.lifecycleGeneration + 1,
         running := Some(Terminating(c, Stopped)))
  }

  function Return(s: Server, r: StartResult): Server { s.(running := None, results := s.results + {r}) }

  function SpawnChild(s: Server, dataDir: Directory): Server {
    s.(process := Some(s.nextChild), spawned := s.spawned[s.nextChild := s.lifecycleGeneration + 1], nextChild := s.nextChild + 1,
       lifecycleGeneration := s.lifecycleGeneration + 1, running := Some(Waiting(s.nextChild, dataDir)))
  }

  /** The probe of a start has answered. */
  function Probed(s: Server, responding: bool, proof: bool, binary: bool, dataDir: Directory): Server {
    if responding then
      if s.authority.Some? && AuthorityCurrent(s, s.authority.value, proof) then Return(s, ResultFor(s.authority.value))
      else if s.process.Some? then s.(running := Some(Terminating(s.process.value, Report)))
      else Return(s, Preexisting)
    else if !binary then s.(running := None)
    else if s.process.Some? then s.(running := Some(Terminating(s.process.value, Spawn(dataDir))))
    else SpawnChild(s, dataDir)
  }

  /** The end of `terminateProcess`: without proof of exit it throws and keeps the child. */
  function Terminated(s: Server, c: Child, next: Then): Server {
    if c in s.exited then Clear(s, c).(running := Some(Ready(next))) else s.(running := None)
  }

  function Continue(s: Server, next: Then): Server {
    match next
    case Report => Return(s, Preexisting)
    case Spawn(dataDir) => SpawnChild(s, dataDir)
    case Rethrow => s.(running := None)
    case Stopped => s.(running := None)
  }

  /** Readiness was established: the child becomes the authority if that still holds. */
  function BecomeReady(s: Server, c: Child, dataDir: Directory, proof: bool): Server
    requires c in s.spawned
  {
    var a := Authority(c, s.spawned[c], dataDir, false);
    var t := s.(authority := Some(a));
    if AuthorityCurrent(t, a, proof) then Return(t, ResultFor(a))
    else t.(authority := None, running := Some(Terminating(c, Rethrow)))
  }

  function GiveUp(s: Server, c: Child): Server {
    s.(authority := if OwnedBy(s.authority, c) then None else s.authority, running := Some(Terminating(c, Rethrow)))
  }

  datatype Event =
    | Calls(job: Job) | Begins
    | Probes(responding: bool, proof: bool, binary: bool, dataDir: Directory)
    | Readies(proof: bool) | GivesUp | Terminates | Continues
    | Exits(child: Child) | Observes(child: Child)

  predicate CanHappen(s: Server, e: Event) {
    match e
    case Calls(_) => true
    case Begins => s.running == None && s.queue != []
    case Probes(_, _, _, _) => s.running.Some? && s.running.value == Probing
    case Readies(_) => s.running.Some? && s.running.value.Waiting? && s.running.value.child in s.spawned
    case GivesUp => s.running.Some? && s.running.value.Waiting?
    case Terminates => s.running.Some? && s.running.value.Terminating?
    case Continues => s.running.Some? && s.running.value.Ready?
    case Exits(c) => c in s.spawned
    case Observes(c) => c in s.spawned && c in s.exited
  }

  function Apply(s: Server, e: Event): Server
    requires CanHappen(s, e)
  {
    match e
    case Calls(job) => s.(queue := s.queue + [job])
    case Begins => Begin(s)
    case Probes(responding, proof, binary, dataDir) => Probed(s, responding, proof, binary, dataDir)
    case Readies(proof) => BecomeReady(s, s.running.value.child, s.running.value.dataDir, proof)
    case GivesUp => GiveUp(s, s.running.value.child)
    case Terminates => Terminated(s, s.running.value.child, s.running.value.next)
    case Continues => Continue(s, s.running.value.next)
    case Exits(c) => s.(exited := s.exited + {c})
    case Observes(c) => ObserveExit(s, c)
  }

  ghost predicate IsRun(states: seq<Server>, events: seq<Event>) {
    && |states| == |events| + 1
    && states[0] == Empty
    && forall i | 0 <= i < |events| :: CanHappen(states[i], events[i]) && states[i + 1] == Apply(states[i], events[i])
  }

  // ---------------------------------------------------------------- invariant

  /** Generations tell children apart; a living child is the one held, and so is the authority's. */
  ghost predicate ChildInv(s: Server) {
    && (forall c | c in s.spawned :: c < s.nextChild && s.spawned[c] <= s.lifecycleGeneration)
    && (forall c, d | c in s.spawned && d in s.spawned && s.spawned[c] == s.spawned[d] :: c == d)
    && (s.process.Some? ==> s.process.value in s.spawned)
    && (forall c | c in s.spawned && c !in s.exited :: Holds(s.process, c))
    && (s.authority.Some? ==> Holds(s.process, s.authority.value.child)
                              && s.spawned[s.authority.value.child] == s.authority.value.generation)
  }

  /** While a start prepares a spawn there is no child; while it waits for one there is no authority. */
  ghost predicate SectionInv(s: Server) {
    s.running.Some? ==>
      match s.running.value
      case Waiting(c, _) => s.authority == None && (s.process == None || Holds(s.process, c)) && c in s.spawned && s.spawned[c] !in s.revoked && s.spawned[c] !in s.losses
                            && (forall r | r in s.results :: r.Managed? ==> r.generation != s.spawned[c])
      case Terminating(c, _) => c in s.spawned && (s.process == None || Holds(s.process, c))
      case Ready(_) => s.process == None
      case Probing => true
  }

  /** A result belongs to a spawned child, which is the authority for as long as it lives. */
  ghost predicate GoodResult(s: Server, c: Child, g: nat, dataDir: Directory) {
    c in s.spawned && s.spawned[c] == g
    && (c !in s.exited ==> s.authority.Some? && s.authority.value.child == c && s.authority.value.dataDir == dataDir)
  }

  ghost predicate HistoryInv(s: Server) {
    && (forall g | g in s.revoked || g in s.losses :: g <= s.lifecycleGeneration)
    && (forall r | r in s.results && r.Managed? :: exists c :: GoodResult(s, c, r.generation, r.dataDir))
    && (s.authority.Some? ==> (s.authority.value.revoked <==> s.authority.value.generation in s.revoked)
                              && s.authority.value.generation !in s.losses)
    && (forall i, j | 0 <= i < j < |s.losses| :: s.losses[i] != s.losses[j])
    && (forall g | g in s.losses :: g !in s.revoked)
    && (forall c | c in s.spawned && s.spawned[c] in s.losses :: c in s.exited)
  }

  ghost predicate Inv(s: Server) { ChildInv(s) && SectionInv(s) && HistoryInv(s) }

  /** Nothing about the results' children has been lost. */
  lemma ResultsStay(s: Server, t: Server)
    requires forall r | r in s.results && r.Managed? :: exists c :: GoodResult(s, c, r.generation, r.dataDir)
    requires t.results == s.results && s.exited <= t.exited
    requires forall c | c in s.spawned :: c in t.spawned && t.spawned[c] == s.spawned[c]
    requires s.authority.Some? && s.authority.value.child !in t.exited ==>
               t.authority.Some? && t.authority.value.child == s.authority.value.child && t.authority.value.dataDir == s.authority.value.dataDir
    ensures forall r | r in t.results && r.Managed? :: exists c :: GoodResult(t, c, r.generation, r.dataDir)
  {
    forall r | r in t.results && r.Managed? ensures exists c :: GoodResult(t, c, r.generation, r.dataDir) {
      var c :| GoodResult(s, c, r.generation, r.dataDir);
      assert GoodResult(t, c, r.generation, r.dataDir);
    }
  }

  lemma ClearKeeps(s: Server, c: Child, running: Option<Section>)
    requires Inv(s) && c in s.exited
    requires running == s.running || (running.Some? && running.value.Ready? && s.running.Some? && s.running.value.Terminating? && s.running.value.child == c)
    ensures Inv(Clear(s, c).(running := running))
  {
    var t := Clear(s, c).(running := running);
    ResultsStay(s, t);
  }

  lemma ObserveKeeps(s: Server, c: Child)
    requires Inv(s) && c in s.spawned && c in s.exited
    ensures Inv(ObserveExit(s, c))
  {
    var t := ObserveExit(s, c);
    ClearKeeps(s, c, s.running);
    ResultsStay(s, t);
  }

  lemma ExitsKeeps(s: Server, c: Child)
    requires Inv(s)
    ensures Inv(s.(exited := s.exited + {c}))
  {
    ResultsStay(s, s.(exited := s.exited + {c}));
  }

  lemma BeginKeeps(s: Server)
    requires Inv(s) && s.running == None && s.queue != []
    ensures Inv(Begin(s))
  {
    ResultsStay(s, Begin(s));
  }

  lemma SpawnKeeps(s: Server, dataDir: Directory)
    requires Inv(s) && s.process == None
    ensures Inv(SpawnChild(s, dataDir))
  {
    var t := SpawnChild(s, dataDir);
    assert s.authority == None;
    assert s.nextChild !in s.spawned;
    ResultsStay(s, t);
    forall r | r in s.results && r.Managed? ensures r.generation != t.spawned[s.nextChild] {
      var c :| GoodResult(s, c, r.generation, r.dataDir);
    }
  }

  lemma ReturnKeeps(s: Server, r: StartResult)
    requires Inv(s) && s.running.Some? && !s.running.value.Waiting?
    requires r.Managed? ==> s.authority.Some? && r == ResultFor(s.authority.value)
    ensures Inv(Return(s, r))
  {
    var t := Return(s, r);
    ResultsStay(s, t.(results := s.results));
    forall q | q in t.results && q.Managed? ensures exists c :: GoodResult(t, c, q.generation, q.dataDir) {
      if q == r {
        assert GoodResult(t, s.authority.value.child, q.generation, q.dataDir);
      } else {
        var c :| GoodResult(s, c, q.generation, q.dataDir);
        assert GoodResult(t, c, q.generation, q.dataDir);
      }
    }
  }

  lemma MoveKeeps(s: Server, running: Option<Section>)
    requires Inv(s)
    requires running.Some? ==> running.value == Probing || (running.value.Terminating? && Holds(s.process, running.value.child))
    ensures Inv(s.(running := running))
  {
    ResultsStay(s, s.(running := running));
  }

  lemma ProbedKeeps(s: Server, responding: bool, proof: bool, binary: bool, dataDir: Directory)
    requires Inv(s) && s.running.Some? && s.running.value == Probing
    ensures Inv(Probed(s, responding, proof, binary, dataDir))
  {
    hide Inv;
    MoveKeeps(s, None);
    if responding && s.authority.Some? && AuthorityCurrent(s, s.authority.value, proof) {
      ReturnKeeps(s, ResultFor(s.authority.value));
    } else if s.process.Some? {
      MoveKeeps(s, Some(Terminating(s.process.value, Report)));
      MoveKeeps(s, Some(Terminating(s.process.value, Spawn(dataDir))));
    } else {
      ReturnKeeps(s, Preexisting);
      SpawnKeeps(s, dataDir);
    }
  }

  /** The child becomes the authority and its result is returned, in one step. */
  lemma ReadyKeeps(s: Server, c: Child, dataDir: Directory, proof: bool)
    requires Inv(s) && s.running == Some(Waiting(c, dataDir)) && c in s.spawned
    ensures Inv(BecomeReady(s, c, dataDir, proof))
  {
    var t := BecomeReady(s, c, dataDir, proof);
    if t.authority.Some? {
      forall q | q in t.results && q.Managed? ensures exists d :: GoodResult(t, d, q.generation, q.dataDir) {
        if q == ResultFor(t.authority.value) {
          assert GoodResult(t, c, q.generation, q.dataDir);
        } else {
          var d :| GoodResult(s, d, q.generation, q.dataDir);
          assert GoodResult(t, d, q.generation, q.dataDir);
        }
      }
    } else {
      WaitingChild(s, c);
      ResultsStay(s, t);
    }
  }

  lemma WaitingChild(s: Server, c: Child)
    requires ChildInv(s) && c in s.spawned
    ensures c !in s.exited ==> Holds(s.process, c)
  {
  }

  lemma GiveUpKeeps(s: Server, c: Child)
    requires Inv(s) && s.running.Some? && s.running.value.Waiting? && s.running.value.child == c
    ensures Inv(GiveUp(s, c))
  {
    ResultsStay(s, GiveUp(s, c));
  }

  lemma QueueKeeps(s: Server, job: Job)
    requires Inv(s)
    ensures Inv(s.(queue := s.queue + [job]))
  {
    ResultsStay(s, s.(queue := s.queue + [job]));
  }

  lemma Step(s: Server, e: Event)
    requires Inv(s) && CanHappen(s, e)
    ensures Inv(Apply(s, e))
  {
    hide Inv, Begin, Probed, BecomeReady, GiveUp, Clear, SpawnChild, ObserveExit, Return;
    if e.Readies? || e.Terminates? || e.Continues? { RunningFacts(s); }
    match e
    case Calls(job) => QueueKeeps(s, job);
    case Begins => BeginKeeps(s);
    case Probes(responding, proof, binary, dataDir) => ProbedKeeps(s, responding, proof, binary, dataDir);
    case Readies(proof) => ReadyKeeps(s, s.running.value.child, s.running.value.dataDir, proof);
    case GivesUp => GiveUpKeeps(s, s.running.value.child);
    case Terminates =>
      if s.running.value.child in s.exited { ClearKeeps(s, s.running.value.child, Some(Ready(s.running.value.next))); }
      else { MoveKeeps(s, None); }
    case Continues =>
      match s.running.value.next {
        case Report => ReturnKeeps(s, Preexisting);
        case Spawn(dataDir) => SpawnKeeps(s, dataDir);
        case _ => MoveKeeps(s, None);
      }
    case Exits(c) => ExitsKeeps(s, c);
    case Observes(c) => ObserveKeeps(s, c);
  }

  lemma RunningFacts(s: Server)
    requires Inv(s) && s.running.Some?
    ensures s.running.value.Terminating? && s.running.value.child !in s.exited ==> s.running.value.child in s.spawned
    ensures s.running.value.Ready? ==> s.process == None
  {
  }

  lemma {:induction false} RunKeeps(states: seq<Server>, events: seq<Event>, i: nat)
    requires IsRun(states, events) && i < |states|
    ensures Inv(states[i])
  {
    hide CanHappen, Apply;
    if i > 0 {
      hide Inv;
      RunKeeps(states, events, i - 1);
      Step(states[i - 1], events[i - 1]);
    }
  }

  lemma RunStep(states: seq<Server>, events: seq<Event>, i: nat)
    requires IsRun(states, events) && i < |events|
    ensures |states| == |events| + 1 && CanHappen(states[i], events[i]) && states[i + 1] == Apply(states[i], events[i])
  {
    hide CanHappen, Apply;
  }

  // ---------------------------------------------------------------- what is never undone

  ghost predicate Grows(s: Server, t: Server) {
    && s.exited <= t.exited && s.revoked <= t.revoked && s.results <= t.results && s.losses <= t.losses
    && (forall c | c in s.spawned :: c in t.spawned && t.spawned[c] == s.spawned[c])
  }

  lemma StepGrows(s: Server, e: Event)
    requires Inv(s) && CanHappen(s, e)
    ensures Grows(s, Apply(s, e))
  {
    hide SectionInv, HistoryInv, AuthorityCurrent;
    assert s.nextChild !in s.spawned;
  }

  lemma {:induction false} RunGrows(states: seq<Server>, events: seq<Event>, i: nat, j: nat)
    requires IsRun(states, events) && i <= j < |states|
    ensures Grows(states[i], states[j])
  {
    hide CanHappen, Apply, Inv;
    if i < j {
      RunGrows(states, events, i, j - 1);
      RunKeeps(states, events, j - 1);
      StepGrows(states[j - 1], events[j - 1]);
    }
  }

  // ---------------------------------------------------------------- theorems

  /** At most one spawned server child is alive: the one held. */
  lemma AtMostOneServer(states: seq<Server>, events: seq<Event>, i: nat, c: Child, d: Child)
    requires IsRun(states, events) && i < |states|
    requires c in states[i].spawned && c !in states[i].exited && d in states[i].spawned && d !in states[i].exited
    ensures c == d && Holds(states[i].process, c)
  {
    hide IsRun, SectionInv, HistoryInv;
    RunKeeps(states, events, i);
  }

  /** A returned result names a spawned child, and is current exactly while that child lives and
      `stop` has not revoked it (and the startup files still prove it). */
  lemma ResultIsCurrentWhileItsChildLives(states: seq<Server>, events: seq<Event>, i: nat, r: StartResult, proof: bool) returns (c: Child)
    requires IsRun(states, events) && i < |states| && r in states[i].results && r.Managed?
    ensures c in states[i].spawned && states[i].spawned[c] == r.generation
    ensures StartCurrent(states[i], r, proof) <==> c !in states[i].exited && r.generation !in states[i].revoked && proof
  {
    hide IsRun, Inv;
    RunKeeps(states, events, i);
    c := CurrentIff(states[i], r, proof);
  }

  lemma CurrentIff(s: Server, r: StartResult, proof: bool) returns (c: Child)
    requires Inv(s) && r in s.results && r.Managed?
    ensures c in s.spawned && s.spawned[c] == r.generation
    ensures StartCurrent(s, r, proof) <==> c !in s.exited && r.generation !in s.revoked && proof
  {
    hide SectionInv;
    c :| GoodResult(s, c, r.generation, r.dataDir);
    if s.authority.Some? && s.authority.value.generation == r.generation {
      assert s.spawned[s.authority.value.child] == s.spawned[c];
    }
  }

  /** Once its child has exited or `stop` has revoked it, a result is never current again, whatever
      is started later. */
  lemma LostResultStaysLost(states: seq<Server>, events: seq<Event>, i: nat, j: nat, r: StartResult, c: Child, proof: bool)
    requires IsRun(states, events) && i <= j < |states| && r in states[i].results && r.Managed?
    requires c in states[i].spawned && states[i].spawned[c] == r.generation
    requires c in states[i].exited || r.generation in states[i].revoked
    ensures r in states[j].results && !StartCurrent(states[j], r, proof)
  {
    hide IsRun, Inv, StartCurrent;
    RunGrows(states, events, i, j);
    RunKeeps(states, events, j);
    var d := CurrentIff(states[j], r, proof);
    SameChild(states[j], c, d);
  }

  lemma SameChild(s: Server, c: Child, d: Child)
    requires Inv(s) && c in s.spawned && d in s.spawned && s.spawned[c] == s.spawned[d]
    ensures c == d
  {
    hide SectionInv, HistoryInv;
  }

  /** The authority-loss handler fires at most once per generation, only for a child that has
      exited, and never for a generation that `stop` has revoked or will revoke. */
  lemma LossFiresOnce(states: seq<Server>, events: seq<Event>, i: nat, m: nat, n: nat)
    requires IsRun(states, events) && i < |states| && m < |states[i].losses| && n < |states[i].losses|
    ensures states[i].losses[m] == states[i].losses[n] ==> m == n
    ensures states[i].losses[m] !in states[i].revoked
    ensures forall c | c in states[i].spawned && states[i].spawned[c] == states[i].losses[m] :: c in states[i].exited
  {
    hide IsRun, ChildInv, SectionInv;
    RunKeeps(states, events, i);
    assert states[i].losses[m] in states[i].losses;
  }

  /** A start that succeeds returns a result that is current at that moment. */
  lemma StartReturnsCurrentResult(states: seq<Server>, events: seq<Event>, i: nat, proof: bool)
    requires IsRun(states, events) && i < |events| && events[i] == Readies(proof) && states[i + 1].running == None
    ensures proof && exists r :: r in states[i + 1].results && r.Managed? && StartCurrent(states[i + 1], r, proof)
  {
    hide IsRun;
    RunStep(states, events, i);
    ReadyReturns(states[i], states[i].running.value.child, states[i].running.value.dataDir, proof);
  }

  lemma ReadyReturns(s: Server, c: Child, dataDir: Directory, proof: bool)
    requires c in s.spawned && BecomeReady(s, c, dataDir, proof).running == None
    ensures var t := BecomeReady(s, c, dataDir, proof);
            proof && exists r :: r in t.results && r.Managed? && StartCurrent(t, r, proof)
  {
    var t := BecomeReady(s, c, dataDir, proof);
    var a := Authority(c, s.spawned[c], dataDir, false);
    assert AuthorityCurrent(s.(authority := Some(a)), a, proof);
    assert ResultFor(a) in t.results;
    assert StartCurrent(t, ResultFor(a), proof);
  }
}
