/** The database manager's methods, one per stretch of code between two awaits, on the fields they
    update. `Valid()` says that the calls so far are a run of `CockroachSupervision` ending in these
    fields; each method says what it means for the server child and for the results handed out. */
module CockroachManager {
  import opened Identifiers
  import opened CockroachSupervision

  // ---------------------------------------------------------------- runs

  /** The events lead from the start to `s`. */
  ghost predicate RunTo(states: seq<Server>, events: seq<Event>, s: Server) {
    IsRun(states, events) && states[|events|] == s
  }

  lemma RunBegins()
    ensures RunTo([Empty], [], Empty)
  {
  }

  lemma RunGoesOn(states: seq<Server>, events: seq<Event>, s: Server, e: Event)
    requires RunTo(states, events, s) && CanHappen(s, e)
    ensures RunTo(states + [Apply(s, e)], events + [e], Apply(s, e))
  {
    hide Apply, CanHappen;
    var (more, steps) := (states + [Apply(s, e)], events + [e]);
    forall i | 0 <= i < |steps| ensures CanHappen(more[i], steps[i]) && more[i + 1] == Apply(more[i], steps[i]) {
      if i < |events| { assert more[i] == states[i] && more[i + 1] == states[i + 1] && steps[i] == events[i]; }
    }
  }

  lemma RunIsSafe(states: seq<Server>, events: seq<Event>, s: Server)
    requires RunTo(states, events, s)
    ensures Inv(s)
  {
    hide CanHappen, Apply, Inv;
    RunKeeps(states, events, |events|);
  }

  // ---------------------------------------------------------------- what single steps mean

  /** No child of the manager lives. */
  ghost predicate NoServer(s: Server) { s.process == None && forall c | c in s.spawned :: c in s.exited }

  /** The child was just spawned, and is the only one that can be alive. */
  ghost predicate OnlyServer(s: Server, t: Server, c: Child) {
    && t.process == Some(c) && c !in s.spawned && t.spawned.Keys == s.spawned.Keys + {c}
    && forall d | d in t.spawned && d !in t.exited :: d == c
  }

  lemma HeldServer(s: Server)
    requires Inv(s)
    ensures s.process == None ==> NoServer(s) && s.authority == None
    ensures s.authority.Some? ==> s.process == Some(s.authority.value.child)
  {
    hide SectionInv, HistoryInv;
    if s.authority.Some? { SomeValue(s.process, s.authority.value.child); }
  }

  lemma SpawnMeans(s: Server, dataDir: Directory)
    requires Inv(s) && s.process == None
    ensures OnlyServer(s, SpawnChild(s, dataDir), s.nextChild)
  {
    hide SectionInv, HistoryInv;
  }

  /** Once a stop has begun, no result is current, whoever holds it. */
  lemma BeginMeans(s: Server, r: StartResult, proof: bool)
    requires Inv(s) && CanHappen(s, Begins)
    ensures s.queue[0] == Stop ==> !StartCurrent(Begin(s), r, proof)
    ensures s.queue[0] == Start ==> (StartCurrent(Begin(s), r, proof) <==> StartCurrent(s, r, proof))
  {
    hide SectionInv, HistoryInv;
  }

  lemma BeginHolds(s: Server)
    requires CanHappen(s, Begins)
    ensures var t := Begin(s);
            && t.running == (if s.queue[0] == Start then Some(Probing)
                             else if s.process.Some? then Some(Terminating(s.process.value, Stopped)) else None)
            && t.process == s.process && t.queue == s.queue[1..]
  {
  }

  lemma NoAuthorityWhileWaiting(s: Server)
    requires Inv(s) && s.running.Some? && s.running.value.Waiting?
    ensures s.authority == None
  {
    hide ChildInv, HistoryInv;
  }

  /** What a probe makes a start return. */
  function ProbeResult(s: Server, responding: bool, proof: bool): Option<StartResult> {
    if !responding then None
    else if s.authority.Some? && AuthorityCurrent(s, s.authority.value, proof) then Some(ResultFor(s.authority.value))
    else if s.process.Some? then None
    else Some(Preexisting)
  }

  /** How a start goes on after its probe. */
  function NextAfterProbe(s: Server, responding: bool, result: Option<StartResult>, binary: bool, dataDir: Directory): Option<Section> {
    if result.Some? || (!responding && !binary) then None
    else if s.process.Some? then Some(Terminating(s.process.value, if responding then Report else Spawn(dataDir)))
    else Some(Waiting(s.nextChild, dataDir))
  }

  /** It returns a result for a responding server exactly when its own is current or it holds none. */
  lemma ProbeResultMeans(s: Server, responding: bool, proof: bool)
    ensures var r := ProbeResult(s, responding, proof);
            && (r.Some? && r.value.Managed? <==> responding && s.authority.Some? && StartCurrent(s, ResultFor(s.authority.value), proof))
            && (r.Some? && r.value.Managed? ==> r.value == ResultFor(s.authority.value))
            && (r == Some(Preexisting) <==>
                  responding && s.process == None && !(s.authority.Some? && StartCurrent(s, ResultFor(s.authority.value), proof)))
  {
  }

  lemma ProbeMeans(s: Server, responding: bool, proof: bool, binary: bool, dataDir: Directory)
    requires Inv(s) && CanHappen(s, Probes(responding, proof, binary, dataDir))
    ensures var (t, r) := (Probed(s, responding, proof, binary, dataDir), ProbeResult(s, responding, proof));
            && (r.Some? ==> r.value in t.results && (r.value.Managed? ==> StartCurrent(t, r.value, proof)))
            && (r == Some(Preexisting) ==> NoServer(t))
            && (t.spawned != s.spawned ==> !responding && OnlyServer(s, t, s.nextChild))
            && t.running == NextAfterProbe(s, responding, r, binary, dataDir)
            && (!responding && binary && s.process == None ==> OnlyServer(s, t, s.nextChild))
            && (!responding && !binary ==> t.spawned == s.spawned)
  {
    hide Inv, OnlyServer, NoServer;
    HeldServer(s);
    if s.process.Some? {
      SomeValue(s.process, s.process.value);
    } else {
      SpawnMeans(s, dataDir);
      SameServer(s, Return(s, Preexisting));
    }
  }

  /** A child proven gone was the only one that could live. */
  lemma TerminatedMeans(s: Server, c: Child, next: Then)
    requires Inv(s) && s.running == Some(Terminating(c, next))
    ensures var t := Terminated(s, c, next); if c in s.exited then NoServer(t) && t.authority == None else t == s.(running := None)
  {
    hide HistoryInv;
  }

  lemma ContinueMeans(s: Server, next: Then)
    requires Inv(s) && s.running == Some(Ready(next))
    ensures next.Spawn? ==> OnlyServer(s, Continue(s, next), s.nextChild)
    ensures !next.Spawn? ==> NoServer(Continue(s, next))
  {
    hide ChildInv, HistoryInv, OnlyServer, NoServer, SpawnChild;
    ReadyIsEmpty(s, next);
    HeldServer(s);
    if next.Spawn? { SpawnMeans(s, next.dataDir); } else { SameServer(s, Continue(s, next)); }
  }

  lemma ReadyIsEmpty(s: Server, next: Then)
    requires Inv(s) && s.running == Some(Ready(next))
    ensures s.process == None
  {
    hide ChildInv, HistoryInv;
  }

  lemma SameServer(s: Server, t: Server)
    requires NoServer(s) && t.process == s.process && t.spawned == s.spawned && t.exited == s.exited
    ensures NoServer(t)
  {
  }

  /** A loss is reported once: for the child's own generation, not reported before and not revoked. */
  lemma ObserveMeans(s: Server, c: Child, r: StartResult, proof: bool)
    requires Inv(s) && CanHappen(s, Observes(c))
    ensures var t := ObserveExit(s, c);
            && (t.losses == s.losses || (t.losses == s.losses + [s.spawned[c]] && s.spawned[c] !in s.losses && s.spawned[c] !in s.revoked))
            && (t.losses == s.losses ==> !OwnedBy(s.authority, c) || s.spawned[c] in s.revoked)
            && (r in t.results && r.Managed? && r.generation == s.spawned[c] ==> !StartCurrent(t, r, proof))
            && !Holds(t.process, c) && !OwnedBy(t.authority, c)
            && (!Holds(s.process, c) ==> t.process == s.process && t.authority == s.authority)
  {
    hide SectionInv;
  }

  lemma ReadyMeans(s: Server, c: Child, dataDir: Directory, proof: bool)
    requires Inv(s) && s.running == Some(Waiting(c, dataDir)) && c in s.spawned
    ensures var t := BecomeReady(s, c, dataDir, proof);
            if proof && s.process == Some(c) && c !in s.exited
            then t.running == None && t.results == s.results + {Managed(s.spawned[c], dataDir)} && StartCurrent(t, Managed(s.spawned[c], dataDir), proof)
            else t.authority == None && t.running == Some(Terminating(c, Rethrow)) && t.results == s.results
  {
    hide Inv;
  }

  class DesktopCockroachManager {
    var process: Option<Child>
    var authority: Option<Authority>
    var lifecycleGeneration: nat
    var lifecycleQueue: seq<Job>
    var running: Option<Section>
    var spawned: map<Child, nat>
    var nextChild: Child
    var exited: set<Child>
    // history, and the run so far
    ghost var results: set<StartResult>
    ghost var revoked: set<nat>
    ghost var losses: seq<nat>
    ghost var states: seq<Server>
    ghost var events: seq<Event>

    ghost function State(): Server
      reads this
    {
      Server(process, authority, lifecycleGeneration, spawned, nextChild, exited, lifecycleQueue, running, results, revoked, losses)
    }

    /** The calls so far are a run that ends in these fields. */
    ghost predicate Valid()
      reads this
    {
      RunTo(states, events, State())
    }

    /** `e` is what this call did, and the run now ends with it. */
    twostate predicate Did(e: Event)
      reads this
    {
      && Valid() && events == old(events) + [e] && states == old(states) + [State()]
      && CanHappen(old(State()), e) && State() == Apply(old(State()), e)
    }

    /** One more event of the run has just happened. */
    ghost method Happened(before: Server, e: Event)
      requires RunTo(states, events, before) && CanHappen(before, e) && State() == Apply(before, e)
      modifies this`states, this`events
      ensures Valid() && events == old(events) + [e] && states == old(states) + [State()] && Inv(before) && Inv(State())
    {
      hide RunTo, Inv, Apply, CanHappen;
      RunIsSafe(states, events, before);
      RunGoesOn(states, events, before, e);
      states := states + [State()];
      events := events + [e];
      RunIsSafe(states, events, State());
    }

    constructor ()
      ensures Valid() && State() == Empty && events == []
    {
      process, authority, lifecycleGeneration, lifecycleQueue, running := None, None, 0, [], None;
      spawned, nextChild, exited := map[], 0, {};
      results, revoked, losses := {}, {}, [];
      states, events := [Empty], [];
      new;
      RunBegins();
    }

    // -------------------------------------------------------------- parts of the calls below

    method ClearProvenExit(c: Child)
      modifies this`process, this`authority
      ensures State() == Clear(old(State()), c)
    {
      if process.Some? && process.value == c { process := None; }
      if authority.Some? && authority.value.child == c { authority := None; }
    }

    method ExitStretch(c: Child) returns (lost: Option<nat>)
      modifies this`process, this`authority, this`lifecycleGeneration, this`losses
      ensures State() == ObserveExit(old(State()), c)
      ensures losses == if lost.Some? then old(losses) + [lost.value] else old(losses)
    {
      lost := None;
      if authority.Some? && authority.value.child == c && !authority.value.revoked {
        lost := Some(authority.value.generation);
        losses := losses + [authority.value.generation];
      }
      var wasCurrent := (process.Some? && process.value == c) || (authority.Some? && authority.value.child == c);
      ClearProvenExit(c);
      if wasCurrent { lifecycleGeneration := lifecycleGeneration + 1; }
    }

    method RevokeFor(c: Child)
      modifies this`running, this`authority, this`revoked, this`lifecycleGeneration
      ensures authority == if OwnedBy(old(authority), c) then Some(old(authority).value.(revoked := true)) else old(authority)
      ensures revoked == if OwnedBy(old(authority), c) then old(revoked) + {old(authority).value.generation} else old(revoked)
      ensures lifecycleGeneration == old(lifecycleGeneration) + 1 && running == Some(Terminating(c, Stopped))
    {
      if authority.Some? && authority.value.child == c {
        authority := Some(authority.value.(revoked := true));
        revoked := revoked + {authority.value.generation};
      }
      lifecycleGeneration := lifecycleGeneration + 1;
      running := Some(Terminating(c, Stopped));
    }

    method BeginStretch()
      requires lifecycleQueue != []
      modifies this`lifecycleQueue, this`running, this`authority, this`revoked, this`lifecycleGeneration
      ensures State() == Begin(old(State()))
    {
      var job := lifecycleQueue[0];
      lifecycleQueue := lifecycleQueue[1..];
      if job == Start {
        running := Some(Probing);
      } else if process.Some? {
        RevokeFor(process.value);
      }
    }

    method SpawnServer(dataDir: Directory)
      modifies this`process, this`spawned, this`nextChild, this`lifecycleGeneration, this`running
      ensures State() == SpawnChild(old(State()), dataDir)
    {
      var c := nextChild;
      process := Some(c);
      lifecycleGeneration := lifecycleGeneration + 1;
      spawned := spawned[c := lifecycleGeneration];
      nextChild := c + 1;
      running := Some(Waiting(c, dataDir));
    }

    method ReturnResult(r: StartResult)
      modifies this`running, this`results
      ensures State() == Return(old(State()), r)
    {
      running := None;
      results := results + {r};
    }

    method IsAuthorityCurrent(a: Authority, proof: bool) returns (isCurrent: bool)
      ensures isCurrent <==> AuthorityCurrent(State(), a, proof)
    {
      isCurrent := authority == Some(a) && process.Some? && process.value == a.child && !a.revoked && a.child !in exited && proof;
    }

    method ProbeStretch(responding: bool, proof: bool, binary: bool, dataDir: Directory) returns (result: Option<StartResult>)
      modifies this`process, this`spawned, this`nextChild, this`lifecycleGeneration, this`running, this`results
      ensures State() == Probed(old(State()), responding, proof, binary, dataDir)
      ensures result == ProbeResult(old(State()), responding, proof)
    {
      hide AuthorityCurrent, SpawnChild;
      result := None;
      if responding {
        var isCurrent := false;
        if authority.Some? { isCurrent := IsAuthorityCurrent(authority.value, proof); }
        if !isCurrent && process.Some? {
          running := Some(Terminating(process.value, Report));
        } else {
          result := Some(if isCurrent then ResultFor(authority.value) else Preexisting);
          ReturnResult(result.value);
        }
      } else if !binary {
        running := None;
      } else if process.Some? {
        running := Some(Terminating(process.value, Spawn(dataDir)));
      } else {
        SpawnServer(dataDir);
      }
    }

    method ReadyStretch(c: Child, dataDir: Directory, proof: bool) returns (result: Option<StartResult>)
      requires c in spawned
      modifies this`authority, this`running, this`results
      ensures State() == BecomeReady(old(State()), c, dataDir, proof)
      ensures result == if proof && process.Some? && process.value == c && c !in exited then Some(Managed(spawned[c], dataDir)) else None
    {
      var a := Authority(c, spawned[c], dataDir, false);
      authority := Some(a);
      var isCurrent := IsAuthorityCurrent(a, proof);
      result := None;
      if isCurrent {
        result := Some(ResultFor(a));
        ReturnResult(result.value);
      } else {
        authority := None;
        running := Some(Terminating(c, Rethrow));
      }
    }

    // -------------------------------------------------------------- calls

    /** A returned result is current exactly while its own child lives, `stop` has not revoked it, and
        the startup files still prove it: not while some later child does. */
    method IsManagedStartCurrent(r: StartResult, proof: bool) returns (isCurrent: bool)
      requires Valid()
      ensures isCurrent <==> StartCurrent(State(), r, proof)
      ensures r in results && r.Managed? ==>
                exists c | c in spawned && spawned[c] == r.generation :: isCurrent <==> c !in exited && r.generation !in revoked && proof
    {
      hide RunTo, Inv;
      RunIsSafe(states, events, State());
      if r in results && r.Managed? {
        ghost var c := CurrentIff(State(), r, proof);
      }
      if authority == None || !r.Managed? || authority.value.revoked { return false; }
      var a := authority.value;
      if r.generation != a.generation || r.dataDir != a.dataDir { return false; }
      isCurrent := IsAuthorityCurrent(a, proof);
    }

    /** `runSerialized`. */
    method RunSerialized(job: Job)
      requires Valid()
      modifies this
      ensures Did(Calls(job)) && lifecycleQueue == old(lifecycleQueue) + [job]
    {
      hide RunTo, Inv;
      ghost var before := State();
      lifecycleQueue := lifecycleQueue + [job];
      Happened(before, Calls(job));
    }

    /** The next serialised operation. A stop makes every result stale before it terminates anything;
        a start that only begins to probe makes none stale. */
    method BeginSection()
      requires Valid() && CanHappen(State(), Begins)
      modifies this
      ensures Did(Begins)
      ensures forall r: StartResult, proof: bool ::
                if old(lifecycleQueue)[0] == Stop then !StartCurrent(State(), r, proof)
                else StartCurrent(State(), r, proof) == StartCurrent(old(State()), r, proof)
      ensures running == if old(lifecycleQueue)[0] == Start then Some(Probing)
                         else if old(process).Some? then Some(Terminating(old(process).value, Stopped)) else None
      ensures process == old(process) && lifecycleQueue == old(lifecycleQueue)[1..]
    {
      hide RunTo, Inv, Begin, StartCurrent;
      ghost var before := State();
      BeginStretch();
      Happened(before, Begins);
      forall r: StartResult, proof: bool { BeginMeans(before, r, proof); }
      BeginHolds(before);
    }

    /** `startOwned` after the first probe of the port. With a server responding it returns its own result
        exactly when that is current, and reports an existing server exactly when it holds no child; without
        one, and with a binary, it spawns when it holds no child, and terminates the held one first. The
        spawned child is the only one that can be alive. */
    method AfterProbe(responding: bool, proof: bool, binary: bool, dataDir: Directory) returns (result: Option<StartResult>)
      requires Valid() && CanHappen(State(), Probes(responding, proof, binary, dataDir))
      modifies this
      ensures Did(Probes(responding, proof, binary, dataDir))
      ensures result.Some? ==> responding && result.value in results && (result.value.Managed? ==> StartCurrent(State(), result.value, proof))
      ensures result == Some(Preexisting) ==> NoServer(State())
      ensures spawned != old(spawned) ==> result == None && OnlyServer(old(State()), State(), old(nextChild))
      ensures result.Some? && result.value.Managed?
              <==> responding && old(authority).Some? && old(StartCurrent(State(), ResultFor(authority.value), proof))
      ensures result == Some(Preexisting)
              <==> responding && old(process) == None && !(old(authority).Some? && old(StartCurrent(State(), ResultFor(authority.value), proof)))
      ensures !responding && binary && old(process) == None ==> OnlyServer(old(State()), State(), old(nextChild))
      ensures old(process).Some? && result == None && (responding || binary) ==>
                running == Some(Terminating(old(process).value, if responding then Report else Spawn(dataDir)))
      ensures !responding && !binary ==> result == None && running == None && spawned == old(spawned)
    {
      hide RunTo, Inv, Probed, OnlyServer, NoServer, StartCurrent;
      ghost var before := State();
      result := ProbeStretch(responding, proof, binary, dataDir);
      Happened(before, Probes(responding, proof, binary, dataDir));
      ProbeMeans(before, responding, proof, binary, dataDir);
      ProbeResultMeans(before, responding, proof);
    }

    /** The end of `waitForOwnedReady`: the start returns a result exactly when the child is still the
        one held and alive and the startup files prove it, and that result is current; otherwise
        nobody has authority and the child is being terminated. */
    method OwnReady(proof: bool) returns (result: Option<StartResult>)
      requires Valid() && CanHappen(State(), Readies(proof))
      modifies this
      ensures Did(Readies(proof))
      ensures result.Some? <==> proof && process == Some(old(running).value.child) && old(running).value.child !in exited
      ensures result.Some? ==> result.value in results && StartCurrent(State(), result.value, proof)
      ensures result == None ==> authority == None && running == Some(Terminating(old(running).value.child, Rethrow)) && results == old(results)
    {
      hide RunTo, Inv, BecomeReady;
      ghost var before := State();
      var (c, dataDir) := (running.value.child, running.value.dataDir);
      result := ReadyStretch(c, dataDir, proof);
      Happened(before, Readies(proof));
      ReadyMeans(before, c, dataDir, proof);
    }

    /** Readiness did not come, or waiting was interrupted by the child's exit. */
    method GiveUpWaiting()
      requires Valid() && CanHappen(State(), GivesUp)
      modifies this
      ensures Did(GivesUp) && authority == None && running == Some(Terminating(old(running).value.child, Rethrow))
    {
      hide RunTo, Inv;
      ghost var before := State();
      var c := running.value.child;
      if authority.Some? && authority.value.child == c { authority := None; }
      running := Some(Terminating(c, Rethrow));
      Happened(before, GivesUp);
      NoAuthorityWhileWaiting(before);
    }

    /** The tail of `terminateProcess`: with proof of exit no child of the manager lives; without it the
        child stays held and the operation fails. */
    method FinishTermination() returns (proven: bool)
      requires Valid() && CanHappen(State(), Terminates)
      modifies this
      ensures Did(Terminates)
      ensures proven <==> old(running).value.child in exited
      ensures proven ==> NoServer(State()) && authority == None && running == Some(Ready(old(running).value.next))
      ensures !proven ==> process == old(process) && authority == old(authority) && running == None
    {
      hide RunTo, Inv;
      ghost var before := State();
      var (c, next) := (running.value.child, running.value.next);
      proven := c in exited;
      if proven {
        ClearProvenExit(c);
        running := Some(Ready(next));
      } else {
        running := None;
      }
      Happened(before, Terminates);
      TerminatedMeans(before, c, next);
    }

    /** What follows a proven exit: a spawn of the only server, or an end with none. */
    method AfterTermination()
      requires Valid() && CanHappen(State(), Continues)
      modifies this
      ensures Did(Continues)
      ensures if old(running).value.next.Spawn? then OnlyServer(old(State()), State(), old(nextChild)) else NoServer(State())
      ensures running == if old(running).value.next.Spawn? then Some(Waiting(old(nextChild), old(running).value.next.dataDir)) else None
      ensures results == if old(running).value.next == Report then old(results) + {Preexisting} else old(results)
    {
      hide RunTo, Inv, OnlyServer, NoServer;
      ghost var before := State();
      var next := running.value.next;
      match next {
        case Report => ReturnResult(Preexisting);
        case Spawn(dataDir) => SpawnServer(dataDir);
        case _ => running := None;
      }
      Happened(before, Continues);
      ContinueMeans(before, next);
    }

    // -------------------------------------------------------------- exits

    /** The operating system ends the child; only its handler changes anything else. */
    method ChildExits(c: Child)
      requires Valid() && CanHappen(State(), Exits(c))
      modifies this
      ensures Did(Exits(c)) && c in exited && process == old(process) && authority == old(authority)
    {
      hide RunTo, Inv;
      ghost var before := State();
      exited := exited + {c};
      Happened(before, Exits(c));
    }

    /** The exit handler; it returns the generation whose loss it reports, if any: the child's own,
        never one reported before and never one that `stop` revoked. Only the held child's exit counts. */
    method HandleExit(c: Child) returns (lost: Option<nat>)
      requires Valid() && CanHappen(State(), Observes(c))
      modifies this
      ensures Did(Observes(c))
      ensures losses == if lost.Some? then old(losses) + [lost.value] else old(losses)
      ensures lost.Some? ==> lost.value == spawned[c] && lost.value !in old(losses) && lost.value !in revoked
      ensures lost == None ==> !OwnedBy(old(authority), c) || spawned[c] in revoked
      ensures !Holds(process, c) && !OwnedBy(authority, c)
      ensures !Holds(old(process), c) ==> process == old(process) && authority == old(authority)
      ensures running == old(running) && lifecycleQueue == old(lifecycleQueue) && exited == old(exited)
      ensures forall r, proof: bool | r in results && r.Managed? && r.generation == spawned[c] :: !StartCurrent(State(), r, proof)
    {
      hide RunTo, Inv, ObserveExit, StartCurrent;
      ghost var before := State();
      lost := ExitStretch(c);
      Happened(before, Observes(c));
      ObserveMeans(before, c, Preexisting, false);
      assert lost.Some? ==> losses[|before.losses|] == lost.value;
      forall r, proof: bool | r in results && r.Managed? && r.generation == spawned[c] ensures !StartCurrent(State(), r, proof) {
        ObserveMeans(before, c, r, proof);
      }
    }
  }
}
