/** The broker's methods, one per stretch of code between two awaits, on the fields they update: first
    the stretches, each proved against the step of `VaultBarrier` it performs, then the events. `Valid()`
    says that the events so far are a run of `VaultBarrier` ending in these fields, so every theorem
    about runs holds of the object. */
module KeyBroker {
  import opened Identifiers
  import opened SessionAuthority
  import opened VaultBarrier
  import opened VaultCalls
  import opened VaultDrains
  import opened VaultSafety
  import opened VaultRuns
  import opened VaultTheorems
  import opened VaultSessions
  import opened VaultRequests
  import opened BrokerSteps

  function LockSent(binding: Binding, lockId: LockId, u: UserId, generation: nat): Binding {
    binding.(lockAcks := binding.lockAcks[lockId := PendingAck(u, generation)])
  }

  /** A drain half done: the locks sent to `done`. */
  ghost function SentTo(bindings: map<BindingId, Binding>, done: set<BindingId>, id: OpId, u: UserId, generation: nat,
                        reached: set<BindingId>): map<BindingId, Binding>
  {
    map b | b in bindings :: if b in done && b in reached then LockSent(bindings[b], (id, b), u, generation) else bindings[b]
  }

  ghost function WaitsFor(done: set<BindingId>, reached: set<BindingId>): map<BindingId, Wait> {
    map b | b in done :: if b in reached then AwaitAck else Terminating
  }

  lemma SendOne(bindings: map<BindingId, Binding>, done: set<BindingId>, id: OpId, u: UserId, generation: nat,
                reached: set<BindingId>, b: BindingId)
    requires b in bindings && b !in done
    ensures var sent := SentTo(bindings, done, id, u, generation, reached);
            && b in sent && sent[b] == bindings[b]
            && SentTo(bindings, done + {b}, id, u, generation, reached)
               == if b in reached then sent[b := LockSent(bindings[b], (id, b), u, generation)] else sent
    ensures WaitsFor(done + {b}, reached) == WaitsFor(done, reached)[b := if b in reached then AwaitAck else Terminating]
  {
  }

  lemma SendAll(k: Kids, id: OpId, u: UserId, generation: nat, reached: set<BindingId>)
    ensures var exposed := ExposedTo(k.bindings, k.children, u);
            SendLocks(k, id, u, generation, reached)
            == k.(bindings := SentTo(k.bindings, exposed, id, u, generation, reached),
                  waits := k.waits[id := WaitsFor(exposed, reached)])
  {
  }

  lemma NoWaits(reached: set<BindingId>)
    ensures WaitsFor({}, reached) == map[]
  {
  }

  lemma SendNone(bindings: map<BindingId, Binding>, id: OpId, u: UserId, generation: nat, reached: set<BindingId>)
    ensures SentTo(bindings, {}, id, u, generation, reached) == bindings
  {
  }

  /** A release half done: the acknowledgements `done` of `b` have been settled. */
  ghost function SettledBy(waits: map<OpId, map<BindingId, Wait>>, done: set<LockId>, b: BindingId): map<OpId, map<BindingId, Wait>> {
    map id | id in waits :: if (id, b) in done then waits[id][b := Released] else waits[id]
  }

  lemma SettleOne(waits: map<OpId, map<BindingId, Wait>>, done: set<LockId>, b: BindingId, id: OpId)
    requires id in waits && (id, b) !in done
    ensures var s := SettledBy(waits, done, b);
            id in s && SettledBy(waits, done + {(id, b)}, b) == s[id := s[id][b := Released]]
  {
  }

  lemma ReleasedWaits(waits: map<OpId, map<BindingId, Wait>>, lockAcks: map<LockId, PendingAck>, b: BindingId)
    ensures SettledBy(waits, lockAcks.Keys, b)
            == map id | id in waits :: if (id, b) in lockAcks then waits[id][b := Released] else waits[id]
  {
  }

  lemma SettleNone(waits: map<OpId, map<BindingId, Wait>>, b: BindingId)
    ensures SettledBy(waits, {}, b) == waits
  {
  }

  /** The three ways a request can go on. */
  lemma ResumeCases(s: Broker, f: int, fieldOk: bool, cryptoOk: bool, now: int)
    requires RequestAt(s, f)
    ensures var (c, r, t) := (s.calls, s.frames.requests[f], RequestResume(s, f, fieldOk, cryptoOk, now));
            var rest := s.frames.(requests := s.frames.requests - {f});
            if Admissible(c, r, fieldOk) && r.operation == State then
              && t.calls == c && t.frames == SetCheck(s.frames, f, InState)
              && t.kids == SetBinding(s.kids, r.binding, AddInFlight(s.kids.bindings[r.binding], r.user))
            else if !Admissible(c, r, fieldOk) || r.operation == Rewrap then t == s.(frames := rest)
            else
              && t.kids == s.kids
              && t.calls == (if r.user in c.unlocked && !ActiveKey(c, r.user, now) then LockCall(c, r.user) else c)
              && t.frames == if ActiveKey(c, r.user, now) && cryptoOk
                             then rest.(replies := rest.replies + [Reply(r.binding, r.user, r.generation, c.unlocked[r.user])]) else rest
  {
    hide LockCall, AddInFlight;
  }

  lemma DepthOfAdmissible(c: Calls, r: Request, fieldOk: bool)
    requires Admissible(c, r, fieldOk)
    ensures Get(c.depth, r.user) == 0
  {
  }

  class DesktopKeyBroker {
    // per user
    var operationEpochs: map<UserId, nat>
    var generations: map<UserId, nat>
    var lockDepth: map<UserId, nat>
    var lockTails: map<UserId, OpId>
    var unlocked: map<UserId, InstalledKey>
    var containmentFailures: set<UserId>
    // pending promises of `lock`, `cache` and `unlock`
    var ops: map<OpId, Op>
    var nextOp: OpId
    var unlocks: map<int, Unlock>
    var nextUnlock: int
    // children
    var children: map<Child, BindingId>
    var bindings: map<BindingId, Binding>
    var nextBinding: BindingId
    var waits: map<OpId, map<BindingId, Wait>>
    var exited: set<Child>
    // handlers waiting for a session lookup or for `state`
    var grants: map<int, PendingGrant>
    var requests: map<int, Request>
    var nextFrame: int
    // history
    ghost var replies: seq<Reply>
    ghost var grantReplies: seq<GrantReply>
    ghost var drains: seq<Drain>
    ghost var published: seq<Publication>
    ghost var acks: set<Ack>
    // and the run so far
    ghost var states: seq<Broker>
    ghost var events: seq<Event>

    ghost function CallState(): Calls
      reads this
    {
      Calls(operationEpochs, generations, lockDepth, lockTails, unlocked, containmentFailures,
            ops, nextOp, unlocks, nextUnlock, drains, published)
    }

    ghost function KidState(): Kids
      reads this
    {
      Kids(children, bindings, nextBinding, waits, exited, acks)
    }

    ghost function FrameState(): Frames
      reads this
    {
      Frames(grants, requests, nextFrame, replies, grantReplies)
    }

    ghost function State(): Broker
      reads this
    {
      Broker(CallState(), KidState(), FrameState())
    }

    /** Every registered child has its binding. */
    ghost predicate Registry()
      reads this
    {
      forall c | c in children :: children[c] in bindings && bindings[children[c]].child == c
    }

    /** Whatever a binding has yet to acknowledge is a wait of its own. */
    ghost predicate Awaited()
      reads this
    {
      forall b, l | b in bindings && l in bindings[b].lockAcks :: l.1 == b && l.0 in waits
    }

    /** The events so far are a run that ends in these fields. */
    ghost predicate Valid()
      reads this
    {
      RunTo(states, events, State())
    }

    /** So what the stretches below ask of the registry and the waits holds in every state of a run. */
    lemma ValidIsSafe()
      requires Valid()
      ensures Inv(State()) && ChildrenAgree(KidState()) && CallsAgree(CallState()) && Registry() && Awaited()
    {
      hide RunTo, Inv;
      RunIsSafe(states, events, State());
      InvMeans(State());
    }

    lemma ValidIsAwaited()
      requires Valid()
      ensures Inv(State()) && Registry() && Awaited()
    {
      hide RunTo, Inv;
      RunIsSafe(states, events, State());
      RegistryAndWaits(State());
    }

    /** `e` is what this call did, and the run now ends with it. */
    twostate predicate Did(e: Event)
      reads this
    {
      && Valid() && events == old(events) + [e] && states == old(states) + [State()]
      && Enabled(old(State()), e) && State() == Apply(old(State()), e)
    }

    /** One more event of the run has just happened. */
    ghost method Happened(before: Broker, e: Event)
      requires RunTo(states, events, before) && Enabled(before, e) && State() == Apply(before, e)
      modifies this`states, this`events
      ensures Valid() && events == old(events) + [e] && states == old(states) + [State()] && Inv(before) && Inv(State())
    {
      hide RunTo, Inv, Apply, Enabled;
      RunIsSafe(states, events, before);
      RunGoesOn(states, events, before, e);
      states := states + [State()];
      events := events + [e];
      RunIsSafe(states, events, State());
    }

    ghost method OpHappened(before: Broker, e: OpEvent)
      requires RunTo(states, events, before) && OpEnabled(before, e) && State() == OpApply(before, e)
      modifies this`states, this`events
      ensures Valid() && events == old(events) + [OnOp(e)] && states == old(states) + [State()] && Inv(before) && Inv(State())
      ensures Enabled(before, OnOp(e)) && State() == Apply(before, OnOp(e))
    {
      hide RunTo, Inv, OpApply, OpEnabled;
      Happened(before, OnOp(e));
    }

    ghost method ChildHappened(before: Broker, e: ChildEvent)
      requires RunTo(states, events, before) && ChildEnabled(before.kids, e) && State() == before.(kids := ChildApply(before.kids, e))
      modifies this`states, this`events
      ensures Valid() && events == old(events) + [OnChild(e)] && states == old(states) + [State()] && Inv(before) && Inv(State())
      ensures Enabled(before, OnChild(e)) && State() == Apply(before, OnChild(e))
    {
      hide RunTo, Inv, ChildApply, ChildEnabled;
      Happened(before, OnChild(e));
    }

    ghost method SessionHappened(before: Broker, e: SessionEvent)
      requires RunTo(states, events, before) && SessionEnabled(before, e) && State() == SessionApply(before, e)
      modifies this`states, this`events
      ensures Valid() && events == old(events) + [OnSession(e)] && states == old(states) + [State()] && Inv(before) && Inv(State())
      ensures Enabled(before, OnSession(e)) && State() == Apply(before, OnSession(e))
    {
      hide RunTo, Inv, SessionApply, SessionEnabled;
      Happened(before, OnSession(e));
    }

    ghost method RequestHappened(before: Broker, e: RequestEvent)
      requires RunTo(states, events, before) && RequestEnabled(before, e) && State() == RequestApply(before, e)
      modifies this`states, this`events
      ensures Valid() && events == old(events) + [OnRequest(e)] && states == old(states) + [State()] && Inv(before) && Inv(State())
      ensures Enabled(before, OnRequest(e)) && State() == Apply(before, OnRequest(e))
    {
      hide RunTo, Inv, RequestApply, RequestEnabled;
      Happened(before, OnRequest(e));
    }

    constructor ()
      ensures Valid() && State() == Empty && events == []
    {
      grants, requests, nextFrame, replies, grantReplies := map[], map[], 0, [], [];
      operationEpochs, generations, lockDepth, lockTails := map[], map[], map[], map[];
      unlocked, containmentFailures := map[], {};
      ops, nextOp, unlocks, nextUnlock := map[], 0, map[], 0;
      children, bindings, nextBinding, waits, exited := map[], map[], 0, map[], {};
      drains, published, acks := [], [], {};
      states, events := [Empty], [];
      new;
      RunBegins();
    }

    // -------------------------------------------------------------- lock and cache

    /** Chain a call after the user's earlier ones. */
    method Chain(u: UserId, kind: Kind) returns (id: OpId)
      modifies this`lockDepth, this`lockTails, this`ops, this`nextOp
      ensures CallState() == Enqueue(old(CallState()), u, kind) && id == old(nextOp)
    {
      lockDepth := lockDepth[u := Get(lockDepth, u) + 1];
      id := nextOp;
      var generation := if kind.Lock? then kind.generation else 0;
      ops := ops[id := Op(u, kind, PrevOf(lockTails, u), Queued, generation, 0, kind.Lock?)];
      lockTails := lockTails[u := id];
      nextOp := nextOp + 1;
    }

    /** `lock` up to its first await. */
    method Lock(u: UserId) returns (id: OpId)
      modifies this`operationEpochs, this`generations, this`lockDepth, this`lockTails, this`ops, this`nextOp
      ensures CallState() == LockCall(old(CallState()), u) && id == old(nextOp)
    {
      hide Enqueue;
      var epoch := Get(operationEpochs, u) + 1;
      operationEpochs := operationEpochs[u := epoch];
      var generation := Get(generations, u) + 1;
      generations := generations[u := generation];
      id := Chain(u, VaultBarrier.Lock(epoch, generation));
    }

    /** The start of `unlock`: it remembers the epoch it saw. */
    method StartUnlocking(u: UserId) returns (n: int)
      modifies this`unlocks, this`nextUnlock
      ensures CallState() == BeginUnlock(old(CallState()), u) && n == old(nextUnlock)
    {
      n := nextUnlock;
      unlocks := unlocks[n := Unlock(u, Get(operationEpochs, u), false)];
      nextUnlock := nextUnlock + 1;
    }

    /** `cache` up to its first await; false when a `lock` came first. */
    method Cache(n: int) returns (queued: bool)
      requires CanCache(CallState(), n)
      modifies this`unlocks, this`lockDepth, this`lockTails, this`ops, this`nextOp
      ensures CallState() == CacheCall(old(CallState()), n)
      ensures queued <==> Get(operationEpochs, unlocks[n].user) == unlocks[n].epoch
    {
      var (u, epoch) := (unlocks[n].user, unlocks[n].epoch);
      unlocks := unlocks[n := unlocks[n].(cached := true)];
      if Get(operationEpochs, u) != epoch { return false; }
      var _ := Chain(u, VaultBarrier.Cache(n, epoch));
      return true;
    }

    /** `drainChildren` up to its await: send a lock to every child that may hold the user's key. */
    method DrainChildren(id: OpId, u: UserId, generation: nat, reached: set<BindingId>)
      requires Registry()
      modifies this`bindings, this`waits
      ensures KidState() == SendLocks(old(KidState()), id, u, generation, reached)
    {
      hide SendLocks, SentTo, WaitsFor;
      SendAll(KidState(), id, u, generation, reached);
      SendNone(bindings, id, u, generation, reached);
      var rest := children.Keys;
      var pending: map<BindingId, Wait> := map[];
      ghost var exposed := ExposedTo(bindings, children, u);
      ghost var done: set<BindingId> := {};
      NoWaits(reached);
      while rest != {}
        invariant rest <= children.Keys && waits == old(waits)
        invariant done <= exposed
        invariant forall b | b in exposed - done :: old(bindings)[b].child in rest
        invariant forall c | c in rest :: children[c] !in done
        invariant bindings == SentTo(old(bindings), done, id, u, generation, reached)
        invariant pending == WaitsFor(done, reached)
        decreases rest
      {
        var child := Next(rest);
        rest := rest - {child};
        var b := children[child];
        SendOne(old(bindings), done, id, u, generation, reached, b);
        var binding := bindings[b];
        if u in binding.authority.users || Get(binding.inFlight, u) > 0 {
          if b in reached { bindings := bindings[b := LockSent(binding, (id, b), u, generation)]; }
          pending := pending[b := if b in reached then AwaitAck else Terminating];
          done := done + {b};
        }
      }
      assert done == exposed;
      waits := waits[id := pending];
    }

    /** A section begins to drain. */
    method DrainSection(id: OpId, generation: nat, reached: set<BindingId>)
      requires id in ops && Registry()
      modifies this`ops, this`bindings, this`waits, this`drains
      ensures CallState() == LogDrain(old(CallState()), id, generation, nextBinding)
      ensures KidState() == SendLocks(old(KidState()), id, old(ops)[id].user, generation, reached)
    {
      hide SendLocks;
      var u := ops[id].user;
      drains := drains + [Drain(u, generation, id)];
      ops := ops[id := ops[id].(stage := Draining, generation := generation, horizon := nextBinding)];
      DrainChildren(id, u, generation, reached);
    }

    /** The head of a lock's section. */
    method StartLockSection(id: OpId, reached: set<BindingId>)
      requires CanStart(CallState(), id) && ops[id].kind.Lock? && Registry()
      modifies this`ops, this`bindings, this`waits, this`drains
      ensures CallState() == SectionStart(old(Broker(CallState(), KidState(), Empty.frames)), id, reached).calls
      ensures KidState() == SectionStart(old(Broker(CallState(), KidState(), Empty.frames)), id, reached).kids
    {
      hide SendLocks, LogDrain, SectionStart;
      SectionCases(Broker(CallState(), KidState(), Empty.frames), id, reached);
      DrainSection(id, ops[id].kind.generation, reached);
    }

    /** The head of a cache's section: superseded, it ends here; otherwise it drops the old key,
        takes the next generation and drains it. */
    method StartCacheSection(id: OpId, reached: set<BindingId>)
      requires id in ops && CanStart(CallState(), id) && ops[id].kind.Cache? && Registry()
      modifies this`generations, this`unlocked, this`ops, this`bindings, this`waits, this`drains
      ensures CallState() == SectionStart(old(Broker(CallState(), KidState(), Empty.frames)), id, reached).calls
      ensures KidState() == SectionStart(old(Broker(CallState(), KidState(), Empty.frames)), id, reached).kids
    {
      hide SendLocks, LogDrain, SectionStart, TakeGeneration, CanStart;
      SectionCases(Broker(CallState(), KidState(), Empty.frames), id, reached);
      var u := ops[id].user;
      if Get(operationEpochs, u) != ops[id].kind.epoch {
        EndSection(id);
      } else {
        var generation := TakeNextGeneration(u);
        assert Registry() && id in ops;
        DrainSection(id, generation, reached);
      }
    }

    method EndSection(id: OpId)
      requires id in ops
      modifies this`ops
      ensures ops == old(ops)[id := old(ops)[id].(stage := Done)]
    {
      ops := ops[id := ops[id].(stage := Done)];
    }

    method TakeNextGeneration(u: UserId) returns (generation: nat)
      modifies this`generations, this`unlocked
      ensures CallState() == TakeGeneration(old(CallState()), u) && generation == Get(old(generations), u) + 1
    {
      generation := Get(generations, u) + 1;
      generations := generations[u := generation];
      unlocked := unlocked - {u};
    }

    /** The result of `drainChildren`: every child has acknowledged or is gone. */
    method AllDrained(id: OpId) returns (complete: bool)
      requires id in waits
      ensures complete == BarrierComplete(KidState(), id)
    {
      var rest := waits[id].Keys;
      complete := true;
      while rest != {} && complete
        invariant rest <= waits[id].Keys
        invariant complete ==> forall b | b in waits[id].Keys - rest :: waits[id][b] != Unproven
        invariant !complete ==> exists b :: b in waits[id] && waits[id][b] == Unproven
        decreases rest
      {
        var b := Next(rest);
        rest := rest - {b};
        complete := waits[id][b] != Unproven;
      }
    }

    /** `publishGeneration`: the bindings a new generation is sent to. */
    method PublishGeneration(u: UserId, generation: nat) returns (to: set<BindingId>)
      requires Registry()
      modifies this`published
      ensures to == Recipients(bindings, children, u)
      ensures published == old(published) + [Publication(u, generation, to)]
    {
      to := {};
      var rest := children.Keys;
      while rest != {}
        invariant rest <= children.Keys && published == old(published)
        invariant to <= Recipients(bindings, children, u)
        invariant forall b | b in Recipients(bindings, children, u) - to :: bindings[b].child in rest
        decreases rest
      {
        var child := Next(rest);
        rest := rest - {child};
        if u in bindings[children[child]].authority.users { to := to + {children[child]}; }
      }
      published := published + [Publication(u, generation, to)];
    }

    /** The rest of a lock's section. */
    method FinishLock(id: OpId, complete: bool)
      requires id in ops && ops[id].kind.Lock?
      modifies this`unlocked, this`containmentFailures, this`ops
      ensures CallState() == SectionEnd(old(CallState()), id, complete, 0, {})
    {
      var u := ops[id].user;
      unlocked := unlocked - {u};
      if complete { containmentFailures := containmentFailures - {u}; } else { containmentFailures := containmentFailures + {u}; }
      ops := ops[id := ops[id].(stage := Done, outcome := complete)];
    }

    /** The rest of a cache's section. */
    method FinishCache(id: OpId, complete: bool, expiresAt: int)
      requires id in ops && ops[id].kind.Cache? && Registry()
      modifies this`unlocked, this`containmentFailures, this`ops, this`published
      ensures CallState() == SectionEnd(old(CallState()), id, complete, expiresAt, Recipients(bindings, children, old(ops)[id].user))
    {
      var op := ops[id];
      var installs := complete && Get(operationEpochs, op.user) == op.kind.epoch;
      ops := ops[id := op.(stage := Done, outcome := installs)];
      SetContained(op.user, complete);
      if installs {
        unlocked := unlocked[op.user := InstalledKey(op.kind.unlock, op.kind.epoch, op.generation, expiresAt)];
        var to := PublishGeneration(op.user, op.generation);
      }
    }

    method SetContained(u: UserId, complete: bool)
      modifies this`containmentFailures
      ensures containmentFailures == Contain(old(containmentFailures), u, complete)
    {
      containmentFailures := if complete then containmentFailures - {u} else containmentFailures + {u};
    }

    method SectionStretch(id: OpId, reached: set<BindingId>)
      requires CanStart(CallState(), id) && Registry()
      modifies this`generations, this`unlocked, this`ops, this`bindings, this`waits, this`drains
      ensures State() == SectionStart(old(State()), id, reached)
    {
      hide SendLocks, SectionStart, CanStart;
      SectionFrames(State(), id, reached);
      if ops[id].kind.Lock? { StartLockSection(id, reached); } else { StartCacheSection(id, reached); }
    }

    method EndStretch(id: OpId, complete: bool, expiresAt: int)
      requires id in ops && Registry()
      modifies this`unlocked, this`containmentFailures, this`ops, this`published
      ensures CallState() == SectionEnd(old(CallState()), id, complete, expiresAt, Recipients(bindings, children, old(ops)[id].user))
    {
      hide SectionEnd, Recipients;
      if ops[id].kind.Lock? {
        EndOfLock(CallState(), id, complete, expiresAt, Recipients(bindings, children, ops[id].user));
        FinishLock(id, complete);
      } else {
        FinishCache(id, complete, expiresAt);
      }
    }

    /** The `finally` of `lock` and `cache`. */
    method Return(id: OpId)
      requires id in ops && (ops[id].user in lockDepth ==> lockDepth[ops[id].user] > 0)
      modifies this`lockDepth, this`lockTails, this`ops
      ensures CallState() == OpReturn(old(CallState()), id)
    {
      var u := ops[id].user;
      var depth := (if u in lockDepth then lockDepth[u] else 1) - 1;
      if depth == 0 { lockDepth := lockDepth - {u}; } else { lockDepth := lockDepth[u := depth]; }
      if u in lockTails && lockTails[u] == id { lockTails := lockTails - {u}; }
      ops := ops[id := ops[id].(stage := Returned)];
    }

    /** `active`: the user's key, unless something is pending or it has expired, which starts a lock. */
    method Active(u: UserId, now: int) returns (key: Option<InstalledKey>)
      modifies this`operationEpochs, this`generations, this`lockDepth, this`lockTails, this`ops, this`nextOp
      ensures key == if ActiveKey(old(CallState()), u, now) then Some(old(unlocked)[u]) else None
      ensures CallState() == if Get(old(lockDepth), u) == 0 && u in old(unlocked) && key == None
                             then LockCall(old(CallState()), u) else old(CallState())
    {
      if Get(lockDepth, u) > 0 || u !in unlocked { return None; }
      if unlocked[u].expiresAt <= now {
        var _ := Lock(u);
        return None;
      }
      return Some(unlocked[u]);
    }

    // -------------------------------------------------------------- children

    /** The `lock-ack` branch of `handle`. */
    method HandleLockAck(child: Child, lockId: LockId, owner: UserId, generation: nat, genuine: bool)
      requires Registry() && Awaited()
      modifies this`bindings, this`waits, this`acks
      ensures KidState() == AckMessage(old(KidState()), child, lockId, owner, generation, genuine)
    {
      if child !in children || !genuine { return; }
      var b := children[child];
      var pending := bindings[b].lockAcks;
      if lockId !in pending { return; }
      if pending[lockId].user != owner || pending[lockId].generation != generation { return; }
      FinishWait(lockId, b, Acked);
      acks := acks + {Ack(b, lockId, owner, generation)};
    }

    /** `settle`: the wait ends and its acknowledgement is withdrawn. */
    method FinishWait(lockId: LockId, b: BindingId, w: Wait)
      requires lockId.0 in waits && b in bindings && lockId.1 == b
      modifies this`bindings, this`waits
      ensures KidState() == SetWait(old(KidState()), lockId.0, b, w)
    {
      waits := waits[lockId.0 := waits[lockId.0][b := w]];
      bindings := bindings[b := bindings[b].(lockAcks := bindings[b].lockAcks - {lockId})];
    }

    /** `releaseChild`: forget the child, close its authority and settle everything awaited from it. */
    method ReleaseChild(b: BindingId)
      requires b in bindings && Awaited()
      modifies this`children, this`bindings, this`waits
      ensures KidState() == Release(old(KidState()), b)
    {
      hide SettledBy;
      var binding := bindings[b];
      if binding.child !in children || children[binding.child] != b { return; }
      children := children - {binding.child};
      SettleNone(waits, b);
      var rest := binding.lockAcks.Keys;
      ghost var done: set<LockId> := {};
      while rest != {}
        invariant children == old(children) - {binding.child} && bindings == old(bindings)
        invariant rest <= binding.lockAcks.Keys && done == binding.lockAcks.Keys - rest
        invariant waits == SettledBy(old(waits), done, b)
        decreases rest
      {
        var lockId := Next(rest);
        SettleOne(old(waits), done, b, lockId.0);
        rest := rest - {lockId};
        done := done + {lockId};
        waits := waits[lockId.0 := waits[lockId.0][b := Released]];
      }
      assert done == binding.lockAcks.Keys;
      ReleasedWaits(old(waits), binding.lockAcks, b);
      bindings := bindings[b := binding.(authority := Close(binding.authority), lockAcks := map[])];
    }

    /** `attachChild` up to its first await. */
    method AttachChild(child: Child, role: Role, users: set<UserId>, verifier: bool, connected: bool) returns (started: bool)
      modifies this`children, this`bindings, this`nextBinding
      ensures KidState() == Attach(old(KidState()), child, role, users, verifier, connected)
      ensures started <==> nextBinding != old(nextBinding)
    {
      if child in children || !connected || child in exited { return false; }
      var authority := Authority(role, role == Api && verifier, users, users, map[], map[], map[], false);
      bindings := bindings[nextBinding := Binding(child, authority, map[], map[], Loading, false)];
      children := children[child := nextBinding];
      nextBinding := nextBinding + 1;
      return true;
    }

    method SetBindingAttachment(b: BindingId, a: Attachment, sent: bool)
      requires b in bindings
      modifies this`bindings
      ensures KidState() == SetAttachment(old(KidState()), b, a, sent)
    {
      bindings := bindings[b := bindings[b].(attachment := a, capabilitySent := bindings[b].capabilitySent || sent)];
    }

    method SetBindingAuthority(b: BindingId, a: Authority)
      requires b in bindings
      modifies this`bindings
      ensures KidState() == SetAuthority(old(KidState()), b, a)
    {
      bindings := bindings[b := bindings[b].(authority := a)];
    }

    /** The synchronous tail of `requestIsAuthorized`. */
    method StillServes(f: int, v: Verification, now: int) returns (authorized: bool)
      requires RequestAt(State(), f) && requests[f].check.Verifying?
      ensures authorized <==> StillAuthorized(State(), f, v, now)
    {
      var r := requests[f];
      var binding := bindings[r.binding];
      authorized := v == Verification.Active && binding.child in children && children[binding.child] == r.binding && !binding.authority.closed
                    && r.check.session in binding.authority.sessions && binding.authority.sessions[r.check.session] == r.check.grant
                    && r.check.grant.expiresAt > now;
    }

    method ReleaseStretch(id: OpId, b: BindingId)
      requires b in bindings && id in waits && Awaited()
      modifies this`children, this`bindings, this`waits
      ensures KidState() == SetWait(Release(old(KidState()), b), id, b, Wait.Released)
    {
      hide Release, Awaited;
      ReleaseUnregisters(KidState(), b);
      ReleaseChild(b);
      FinishWait((id, b), b, Wait.Released);
    }

    method IsLive(b: BindingId, connected: bool) returns (live: bool)
      requires b in bindings
      ensures live <==> LiveAttachment(KidState(), b, connected)
    {
      var child := bindings[b].child;
      live := child in children && children[child] == b && connected && child !in exited;
    }

    /** The protocol validators have loaded, or not. */
    method LoadStretch(b: BindingId, loaded: bool, connected: bool)
      requires Attaching(KidState(), b, Loading) && Awaited()
      modifies this`children, this`bindings, this`waits
      ensures KidState() == AttachLoaded(old(KidState()), b, loaded, connected)
    {
      hide Release, Awaited, LiveAttachment, SetAttachment;
      ReleaseUnregisters(KidState(), b);
      var live := IsLive(b, connected);
      if loaded && live {
        SetBindingAttachment(b, Offered, true);
      } else {
        ReleaseChild(b);
        SetBindingAttachment(b, Abandoned, false);
      }
    }

    /** One delivery callback of the capability or of a generation. */
    method DeliverStretch(b: BindingId, delivered: bool, connected: bool, more: bool)
      requires Attaching(KidState(), b, Offered) && Awaited()
      modifies this`children, this`bindings, this`waits
      ensures KidState() == AttachDelivered(old(KidState()), b, delivered, connected, more)
    {
      hide Release, Awaited, LiveAttachment, SetAttachment;
      ReleaseUnregisters(KidState(), b);
      var live := IsLive(b, connected);
      if delivered && live {
        SetBindingAttachment(b, if more then Offered else Attached, false);
      } else {
        if bindings[b].child in exited { ReleaseChild(b); }
        SetBindingAttachment(b, Abandoned, false);
      }
    }

    // -------------------------------------------------------------- session grants

    /** The grant branch of `handleOwnerAuthority` up to the session lookup. */
    method AdmitOwnerGrant(b: BindingId, m: GrantRequest, genuine: bool, now: int) returns (verifying: bool)
      requires b in bindings
      modifies this`bindings, this`grants, this`nextFrame
      ensures KidState() == GrantAdmit(old(State()), b, m, genuine, now).kids
      ensures FrameState() == GrantAdmit(old(State()), b, m, genuine, now).frames
      ensures verifying <==> nextFrame != old(nextFrame)
    {
      hide Admit, MayVerify;
      var (authority, admitted) := Admit(bindings[b].authority, m.requestId, genuine, now);
      bindings := bindings[b := bindings[b].(authority := authority)];
      verifying := admitted && MayVerify(authority, m, now) && Get(lockDepth, m.owner) == 0;
      if verifying {
        grants := grants[nextFrame := PendingGrant(b, m, Get(generations, m.owner))];
        nextFrame := nextFrame + 1;
      }
    }

    /** The rest of it: only with nothing pending for the owner and an unchanged generation. */
    method FinishOwnerGrant(f: int, v: Verification, now: int)
      requires GrantAt(State(), f)
      modifies this`bindings, this`grants, this`nextFrame, this`grantReplies
      ensures KidState() == GrantVerified(old(State()), f, v, now).kids
      ensures FrameState() == GrantVerified(old(State()), f, v, now).frames
    {
      hide Install, MayInstall;
      var g := grants[f];
      var (binding, owner) := (bindings[g.binding], g.request.owner);
      grants := grants - {f};
      if !MayInstall(binding.authority, g.request, v, now)
         || binding.child !in children || children[binding.child] != g.binding
         || Get(generations, owner) != g.generation || Get(lockDepth, owner) > 0 {
        return;
      }
      var (authority, outcome) := Install(binding.authority, g.request, now, nextFrame);
      bindings := bindings[g.binding := binding.(authority := authority)];
      nextFrame := nextFrame + 1;
      grantReplies := grantReplies + GrantReplies(g, outcome);
    }

    // -------------------------------------------------------------- requests

    /** The rest of `handle` once the request's authority has been decided. */
    method ResumeRequest(f: int, fieldOk: bool, cryptoOk: bool, now: int)
      requires RequestAt(State(), f)
      modifies this`operationEpochs, this`generations, this`lockDepth, this`lockTails, this`ops, this`nextOp,
               this`bindings, this`requests, this`replies
      ensures State() == RequestResume(old(State()), f, fieldOk, cryptoOk, now)
    {
      hide RequestResume, Admissible;
      var may := MayProceed(requests[f], fieldOk);
      if !may || requests[f].operation == Rewrap {
        DenyRequest(f, fieldOk, cryptoOk, now);
      } else if requests[f].operation == Operation.State {
        ServeState(f, fieldOk, cryptoOk, now);
      } else {
        ServeCipher(f, fieldOk, cryptoOk, now);
      }
    }

    method DenyRequest(f: int, ghost fieldOk: bool, ghost cryptoOk: bool, ghost now: int)
      requires RequestAt(State(), f) && (!Admissible(CallState(), requests[f], fieldOk) || requests[f].operation == Rewrap)
      modifies this`requests
      ensures State() == RequestResume(old(State()), f, fieldOk, cryptoOk, now)
    {
      hide RequestResume, Admissible;
      ResumeCases(State(), f, fieldOk, cryptoOk, now);
      requests := requests - {f};
    }

    method ServeState(f: int, ghost fieldOk: bool, ghost cryptoOk: bool, ghost now: int)
      requires RequestAt(State(), f) && Admissible(CallState(), requests[f], fieldOk) && requests[f].operation == Operation.State
      modifies this`bindings, this`requests
      ensures State() == RequestResume(old(State()), f, fieldOk, cryptoOk, now)
    {
      hide RequestResume, Admissible, SetCheck, SetBinding, AddInFlight;
      ResumeCases(State(), f, fieldOk, cryptoOk, now);
      EnterStateOf(f);
    }

    method ServeCipher(f: int, ghost fieldOk: bool, cryptoOk: bool, now: int)
      requires RequestAt(State(), f) && Admissible(CallState(), requests[f], fieldOk)
      requires requests[f].operation == Encrypt || requests[f].operation == Decrypt
      modifies this`operationEpochs, this`generations, this`lockDepth, this`lockTails, this`ops, this`nextOp, this`requests, this`replies
      ensures State() == RequestResume(old(State()), f, fieldOk, cryptoOk, now)
    {
      hide RequestResume, Admissible, LockCall, ActiveKey;
      ResumeCases(State(), f, fieldOk, cryptoOk, now);
      DepthOfAdmissible(CallState(), requests[f], fieldOk);
      var _ := Answer(f, cryptoOk, now);
    }

    /** The checks of `handle` after its one await. */
    method MayProceed(r: Request, fieldOk: bool) returns (may: bool)
      ensures may <==> Admissible(CallState(), r, fieldOk)
    {
      may := r.check.Decided? && r.check.authorized && Get(lockDepth, r.user) == 0
             && r.generation == Get(generations, r.user) && fieldOk;
    }

    method EnterStateOf(f: int)
      requires RequestAt(State(), f)
      modifies this`bindings, this`requests
      ensures FrameState() == SetCheck(old(FrameState()), f, InState)
      ensures var r := old(requests)[f];
              KidState() == SetBinding(old(KidState()), r.binding, AddInFlight(old(bindings)[r.binding], r.user))
    {
      EnterState(requests[f].binding, requests[f].user);
      requests := requests[f := requests[f].(check := InState)];
    }

    /** Encrypt or decrypt under the active key. */
    method Answer(f: int, cryptoOk: bool, now: int) returns (replied: bool)
      requires f in requests && Get(lockDepth, requests[f].user) == 0
      modifies this`operationEpochs, this`generations, this`lockDepth, this`lockTails, this`ops, this`nextOp, this`requests, this`replies
      ensures var (c, r) := (old(CallState()), old(requests)[f]);
              && CallState() == (if r.user in c.unlocked && !ActiveKey(c, r.user, now) then LockCall(c, r.user) else c)
              && requests == old(requests) - {f}
              && replies == (if ActiveKey(c, r.user, now) && cryptoOk
                             then old(replies) + [Reply(r.binding, r.user, r.generation, c.unlocked[r.user])] else old(replies))
      ensures replied <==> replies != old(replies)
    {
      hide LockCall;
      var r := requests[f];
      requests := requests - {f};
      var key := Active(r.user, now);
      replied := key.Some? && cryptoOk;
      if replied { replies := replies + [Reply(r.binding, r.user, r.generation, key.value)]; }
    }

    /** `handle` enters and leaves the `state` operation. */
    method EnterState(b: BindingId, u: UserId)
      requires b in bindings
      modifies this`bindings
      ensures KidState() == SetBinding(old(KidState()), b, AddInFlight(old(bindings)[b], u))
    {
      var inFlight := bindings[b].inFlight;
      bindings := bindings[b := bindings[b].(inFlight := inFlight[u := Get(inFlight, u) + 1])];
    }

    method LeaveState(b: BindingId, u: UserId)
      requires b in bindings && (u in bindings[b].inFlight ==> bindings[b].inFlight[u] > 0)
      modifies this`bindings
      ensures KidState() == SetBinding(old(KidState()), b, DropInFlight(old(bindings)[b], u))
    {
      var inFlight := bindings[b].inFlight;
      var remaining := (if u in inFlight then inFlight[u] else 1) - 1;
      if remaining == 0 { inFlight := inFlight - {u}; } else { inFlight := inFlight[u := remaining]; }
      bindings := bindings[b := bindings[b].(inFlight := inFlight)];
    }

    // -------------------------------------------------------------- events: calls

    /** From this call on, every pending cache of the user is outdated and no key is active. */
    method CallLock(u: UserId) returns (id: OpId)
      requires Valid()
      modifies this
      ensures Did(OnOp(OpEvent.CallLock(u)))
      ensures Get(operationEpochs, u) == Get(old(operationEpochs), u) + 1 && Get(lockDepth, u) > 0
      ensures forall c | c in ops && ops[c].user == u && ops[c].kind.Cache? :: Outdated(CallState(), c)
      ensures forall now: int :: !ActiveKey(CallState(), u, now)
    {
      hide RunTo, Inv, Apply, Enabled, Registry, Awaited, LockCall, Outdated, ActiveKey;
      ghost var before := State();
      id := Lock(u);
      OpHappened(before, OpEvent.CallLock(u));
      LockMeans(before, u);
      LockCounts(before.calls, u);
    }

    method BeginUnlocking(u: UserId) returns (n: int)
      requires Valid()
      modifies this
      ensures Did(OnOp(OpEvent.StartUnlock(u)))
      ensures CanCache(CallState(), n) && unlocks[n] == Unlock(u, Get(operationEpochs, u), false)
    {
      hide RunTo, Inv, Apply, Enabled, Registry, Awaited;
      ghost var before := State();
      n := StartUnlocking(u);
      OpHappened(before, OpEvent.StartUnlock(u));
    }

    /** A cache joins the queue only if no lock has been called since its unlock began. */
    method CallCache(n: int) returns (queued: bool)
      requires Valid() && CanCache(CallState(), n)
      modifies this
      ensures Did(OnOp(OpEvent.CallCache(n)))
      ensures queued <==> Get(operationEpochs, old(unlocks)[n].user) == old(unlocks)[n].epoch
      ensures queued <==> ops != old(ops)
    {
      hide RunTo, Inv, Apply, Enabled, Registry, Awaited, CacheCall, CanCache, Get;
      ghost var before := State();
      queued := Cache(n);
      OpHappened(before, OpEvent.CallCache(n));
      CacheCounts(before, n);
    }

    /** A section starts while no other section of its user drains. If it drains, it takes a generation
        above every earlier one and waits for exactly the children that may hold the user's key. */
    method StartSection(id: OpId, reached: set<BindingId>)
      requires Valid() && CanStart(CallState(), id)
      modifies this
      ensures Did(OnOp(OpEvent.StartSection(id, reached)))
      ensures forall a | a in old(ops) && old(ops)[a].user == old(ops)[id].user :: old(ops)[a].stage != Draining
      ensures id in ops && (ops[id].stage == Draining <==> !Outdated(old(CallState()), id))
      ensures ops[id].stage == Draining ==>
                && id in waits && (forall b :: b in waits[id] <==> MayHold(old(State()), ops[id].user, b))
                && forall d | d in old(drains) && d.user == ops[id].user :: d.generation < ops[id].generation
      ensures ops[id].stage != Draining ==> KidState() == old(KidState()) && drains == old(drains)
    {
      hide RunTo, Inv, Apply, Enabled, Registry, Awaited, SectionStart, CanStart, Outdated, ExposedTo, MayHold;
      ghost var before := State();
      ValidIsAwaited();
      SectionStretch(id, reached);
      OpHappened(before, OpEvent.StartSection(id, reached));
      SectionMeans(before, id, reached);
      ExposedExactly(before, ops[id].user);
    }

    /** When `drainChildren` returns, a complete barrier covers every child that may act for the user, an
        incomplete one contains the user; and the user then has a key only as the cache's own, under the
        current epoch and generation, which is published. */
    method FinishSection(id: OpId, expiresAt: int) returns (complete: bool)
      requires Valid() && DrainSettled(State(), id)
      modifies this
      ensures Did(OnOp(Drained(id, expiresAt))) && id in ops
      ensures complete ==> Covers(CallState(), KidState(), id)
      ensures ops[id].user in containmentFailures <==> !complete
      ensures ops[id].user in unlocked <==> ops[id].kind.Cache? && complete && Get(operationEpochs, ops[id].user) == ops[id].kind.epoch
      ensures ops[id].user in unlocked ==>
                var (u, generation) := (ops[id].user, Get(generations, ops[id].user));
                && unlocked[u] == InstalledKey(ops[id].kind.unlock, Get(operationEpochs, u), generation, expiresAt)
                && (exists to | published == old(published) + [Publication(u, generation, to)] ::
                      forall b :: b in to <==> b in bindings && Registered(children, b, bindings[b]) && u in bindings[b].authority.users)
      ensures ops[id].user !in unlocked ==> published == old(published)
    {
      hide RunTo, Inv, Apply, Enabled, Registry, Awaited, SectionEnd, Recipients, BarrierComplete, DrainSettled, Covers;
      ghost var before := State();
      ValidIsAwaited();
      SettledFacts(before, id);
      complete := AllDrained(id);
      EndStretch(id, complete, expiresAt);
      OpHappened(before, Drained(id, expiresAt));
      FinishMeans(before, id, expiresAt);
      RecipientsAre(before.kids, before.calls.ops[id].user);
    }

    /** A drain that throws contains its user, who then has no key. */
    method FailSection(id: OpId)
      requires Valid() && OpEnabled(State(), DrainThrew(id))
      modifies this
      ensures Did(OnOp(DrainThrew(id)))
      ensures id in ops && ops[id].user in containmentFailures && ops[id].user !in unlocked && published == old(published)
    {
      hide RunTo, Inv, Apply, Enabled, Registry, Awaited, SectionEnd, Recipients;
      ghost var before := State();
      ValidIsAwaited();
      FailedEnd(before.calls, id, 0, Recipients(bindings, children, ops[id].user));
      EndStretch(id, false, 0);
      OpHappened(before, DrainThrew(id));
      EndMeans(before, id, false, 0, {});
      EndOutcome(before.calls, id, false, 0, {});
    }

    /** The `finally` block; the depth stays the number of calls that have not returned. */
    method ReturnCall(id: OpId)
      requires Valid() && OpEnabled(State(), OpEvent.Return(id))
      modifies this
      ensures Did(OnOp(OpEvent.Return(id)))
      ensures CallsAgree(CallState()) && unlocked == old(unlocked)
    {
      hide RunTo, Inv, Apply, Enabled, Registry, Awaited, CallsAgree, ChildrenAgree, OpReturn, Get;
      ghost var before := State();
      ReturnMeans(before.calls, id);
      RunIsSafe(states, events, before);
      if ops[id].user in lockDepth { DepthIsPositive(before, ops[id].user); }
      Return(id);
      OpHappened(before, OpEvent.Return(id));
      InvMeans(State());
    }

    // -------------------------------------------------------------- events: children

    /** An acknowledgement counts exactly for an open wait of this very child, user and generation. */
    method AckArrives(child: Child, lockId: LockId, owner: UserId, generation: nat, genuine: bool)
      requires Valid()
      modifies this
      ensures Did(OnChild(ChildEvent.AckArrives(child, lockId, owner, generation, genuine)))
      ensures if genuine && child in children && children[child] == lockId.1 && Waiting(old(KidState()), lockId.0, lockId.1, AwaitAck)
                 && lockId.0 in ops && ops[lockId.0].user == owner && ops[lockId.0].generation == generation
              then Waiting(KidState(), lockId.0, lockId.1, Acked) && acks == old(acks) + {Ack(lockId.1, lockId, owner, generation)}
              else KidState() == old(KidState())
    {
      hide RunTo, Inv, Apply, Enabled, Registry, Awaited, AckMessage, Waiting;
      ghost var before := State();
      ValidIsAwaited();
      HandleLockAck(child, lockId, owner, generation, genuine);
      ChildHappened(before, ChildEvent.AckArrives(child, lockId, owner, generation, genuine));
      AckMeans(before, child, lockId, owner, generation, genuine);
      RegistryAndWaits(before);
    }

    /** No acknowledgement in time: the child is sent SIGTERM. */
    method AckTimesOut(id: OpId, b: BindingId)
      requires Valid() && Waiting(KidState(), id, b, AwaitAck)
      modifies this
      ensures Did(OnChild(ChildEvent.AckTimesOut(id, b))) && Waiting(KidState(), id, b, Terminating)
    {
      hide RunTo, Inv, Apply, Enabled, Registry, Awaited, SetWait;
      ghost var before := State();
      SetWaitWaits(KidState(), id, b, Terminating);
      FinishWait((id, b), b, Terminating);
      ChildHappened(before, ChildEvent.AckTimesOut(id, b));
    }

    /** A signalled child is proven gone: it loses its authority, and nothing waits for it any more. */
    method ExitIsProven(id: OpId, b: BindingId)
      requires Valid() && ChildEnabled(KidState(), ChildEvent.ExitIsProven(id, b))
      modifies this
      ensures Did(OnChild(ChildEvent.ExitIsProven(id, b)))
      ensures Gone(KidState(), b) && Waiting(KidState(), id, b, Wait.Released)
    {
      hide RunTo, Inv, Apply, Enabled, Registry, Awaited, SetWait, Release, Gone, Signalled, Waiting;
      ghost var before := State();
      ValidIsAwaited();
      SignalledFacts(KidState(), id, b);
      ReleaseLeaves(before, id, b);
      ReleaseStretch(id, b);
      ChildHappened(before, ChildEvent.ExitIsProven(id, b));
      UnregisteredIsGone(State(), b);
    }

    /** A child that survives SIGTERM is sent SIGKILL; one that survives both is kept. */
    method ExitIsUnproven(id: OpId, b: BindingId)
      requires Valid() && ChildEnabled(KidState(), ChildEvent.ExitIsUnproven(id, b))
      modifies this
      ensures Did(OnChild(ChildEvent.ExitIsUnproven(id, b)))
      ensures Waiting(old(KidState()), id, b, Terminating) ==> Waiting(KidState(), id, b, Killing)
      ensures Waiting(old(KidState()), id, b, Killing) ==> Waiting(KidState(), id, b, Unproven)
      ensures children == old(children)
    {
      hide RunTo, Inv, Apply, Enabled, Registry, Awaited, SetWait, Signalled;
      ghost var before := State();
      SignalledFacts(KidState(), id, b);
      SetWaitWaits(KidState(), id, b, if waits[id][b] == Wait.Terminating then Killing else Unproven);
      FinishWait((id, b), b, if waits[id][b] == Wait.Terminating then Killing else Unproven);
      ChildHappened(before, ChildEvent.ExitIsUnproven(id, b));
    }

    method ChildExits(child: Child)
      requires Valid()
      modifies this
      ensures Did(OnChild(ChildEvent.ChildExits(child))) && child in exited
    {
      hide RunTo, Inv, Apply, Enabled, Registry, Awaited;
      ghost var before := State();
      exited := exited + {child};
      ChildHappened(before, ChildEvent.ChildExits(child));
    }

    /** The exit handler: the binding loses its authority, and nothing waits for it any more. */
    method ExitIsObserved(child: Child)
      requires Valid() && ChildEnabled(KidState(), ChildEvent.ExitIsObserved(child))
      modifies this
      ensures Did(OnChild(ChildEvent.ExitIsObserved(child)))
      ensures child !in children && Gone(KidState(), old(children)[child])
    {
      hide RunTo, Inv, Apply, Enabled, Registry, Awaited, Release, Gone;
      ghost var before := State();
      ValidIsAwaited();
      ObservedMeans(before, child);
      ReleaseChild(children[child]);
      ChildHappened(before, ChildEvent.ExitIsObserved(child));
      UnregisteredIsGone(State(), before.kids.children[child]);
    }

    /** A child is attached exactly when it is new, connected and alive. Its new binding acts for its fixed
        users only, and has no capability yet. */
    method CallAttach(child: Child, role: Role, users: set<UserId>, verifier: bool, connected: bool) returns (started: bool)
      requires Valid()
      modifies this
      ensures Did(OnChild(ChildEvent.CallAttach(child, role, users, verifier, connected)))
      ensures started <==> child !in old(children) && connected && child !in exited
      ensures started ==> child in children && children[child] !in old(bindings) && children[child] in bindings
                          && bindings[children[child]].authority.users == users && !bindings[children[child]].capabilitySent
      ensures !started ==> KidState() == old(KidState())
    {
      hide RunTo, Inv, Apply, Enabled, Registry, Awaited;
      ghost var before := State();
      ValidIsAwaited();
      FreshBinding(before);
      started := AttachChild(child, role, users, verifier, connected);
      ChildHappened(before, ChildEvent.CallAttach(child, role, users, verifier, connected));
    }

    /** The capability is sent only to a live, registered child; any other is released without it. */
    method ValidatorsLoad(b: BindingId, loaded: bool, connected: bool)
      requires Valid() && Attaching(KidState(), b, Loading)
      modifies this
      ensures Did(OnChild(ChildEvent.ValidatorsLoad(b, loaded, connected))) && b in bindings
      ensures bindings[b].capabilitySent ==> loaded && LiveAttachment(KidState(), b, connected)
      ensures !bindings[b].capabilitySent ==> Gone(KidState(), b)
    {
      hide RunTo, Inv, Apply, Enabled, Registry, Awaited, AttachLoaded, Gone, LiveAttachment;
      ghost var before := State();
      ValidIsAwaited();
      SentLoading(before, b, loaded, connected);
      LoadStretch(b, loaded, connected);
      ChildHappened(before, ChildEvent.ValidatorsLoad(b, loaded, connected));
      if !bindings[b].capabilitySent { UnregisteredIsGone(State(), b); }
    }

    /** The attachment goes on exactly while every delivery succeeds and the child is live; it is complete with
        the last one. */
    method DeliveryEnds(b: BindingId, delivered: bool, connected: bool, more: bool)
      requires Valid() && Attaching(KidState(), b, Offered)
      modifies this
      ensures Did(OnChild(ChildEvent.DeliveryEnds(b, delivered, connected, more)))
      ensures LiveIsRegistered(KidState(), b) && b in bindings
      ensures bindings[b].attachment == if delivered && LiveAttachment(old(KidState()), b, connected)
                                        then (if more then Offered else Attached) else Abandoned
      ensures delivered && LiveAttachment(old(KidState()), b, connected) ==> Registered(children, b, bindings[b])
    {
      hide RunTo, Inv, Apply, Enabled, Registry, Awaited, AttachDelivered, LiveIsRegistered, LiveAttachment;
      ghost var before := State();
      ValidIsAwaited();
      DeliveredKeeps(before.kids, b, delivered, connected, more);
      DeliverStretch(b, delivered, connected, more);
      ChildHappened(before, ChildEvent.DeliveryEnds(b, delivered, connected, more));
      LiveAt(State(), b);
    }

    // -------------------------------------------------------------- events: session authority

    /** A malformed or misdirected message closes its sender's authority. */
    method PoisonChild(child: Child)
      requires Valid() && Known(KidState(), child)
      modifies this
      ensures Did(OnSession(Poison(child)))
      ensures child in children && children[child] in bindings
      ensures bindings[children[child]].authority.closed && bindings[children[child]].authority.sessions == map[]
    {
      hide RunTo, Inv, Apply, Enabled, Close, AuthorityInv;
      ghost var before := State();
      var b := children[child];
      RunIsSafe(states, events, before);
      AuthorityAt(before, b);
      CloseKeeps(bindings[b].authority);
      SetBindingAuthority(b, Close(bindings[b].authority));
      SessionHappened(before, Poison(child));
    }

    /** A new revocation removes the session's grant and bars the session for eight days, or closes all
        authority. */
    method HandleOwnerRevoke(child: Child, request: RequestId, session: SessionId, genuine: bool, now: int)
      requires Valid() && Known(KidState(), child)
      modifies this
      ensures Did(OnSession(OwnerRevoke(child, request, session, genuine, now)))
      ensures child in children && children[child] in bindings
      ensures IsNew(old(bindings)[children[child]].authority, request, genuine, now) ==>
                var a := bindings[children[child]].authority;
                session !in a.sessions && Barred(a, session, now + MAX_AUTHORITY_MS) && Remembered(a, request, now + MAX_AUTHORITY_MS)
    {
      hide RunTo, Inv, Apply, Enabled, Revoke, IsNew, AuthorityInv, Barred, Remembered;
      ghost var before := State();
      var b := children[child];
      RunIsSafe(states, events, before);
      AuthorityAt(before, b);
      RevokeBars(bindings[b].authority, request, session, genuine, now);
      SetBindingAuthority(b, Revoke(bindings[b].authority, request, session, genuine, now));
      SessionHappened(before, OwnerRevoke(child, request, session, genuine, now));
    }

    /** A session is looked up for a grant exactly when the message is new and there is room to remember
        it, its time is allowed, the session is not tombstoned, and nothing is pending for its owner. */
    method HandleOwnerGrant(b: BindingId, m: GrantRequest, genuine: bool, now: int) returns (verifying: bool)
      requires Valid() && b in bindings
      modifies this
      ensures Did(OnSession(OwnerGrant(b, m, genuine, now)))
      ensures verifying <==> GoesOn(old(State()), b, m, genuine, now)
      ensures grants == if verifying then old(grants)[old(nextFrame) := PendingGrant(b, m, Get(generations, m.owner))] else old(grants)
    {
      hide RunTo, Inv, Apply, Enabled, GrantAdmit, GoesOn;
      ghost var before := State();
      RunIsSafe(states, events, before);
      verifying := AdmitOwnerGrant(b, m, genuine, now);
      SessionsLeaveCalls(before, OwnerGrant(b, m, genuine, now));
      SessionHappened(before, OwnerGrant(b, m, genuine, now));
      AdmitsExactlyWhen(before, b, m, genuine, now);
    }

    /** A grant succeeds exactly when its session is active and not tombstoned, its time is not over, nothing
        is pending for its owner, whose generation is still the same, its binding is registered and open,
        and there is room or a grant to renew; the binding may then act for the owner. */
    method SessionIsVerified(f: int, v: Verification, now: int)
      requires Valid() && GrantAt(State(), f)
      modifies this
      ensures Did(OnSession(SessionVerified(f, v, now)))
      ensures old(grants)[f].binding in bindings && GrantedRightly(old(State()), State(), old(grants)[f], v, now)
      ensures forall r | grantReplies == old(grantReplies) + [r] ::
                && Pending(ops, r.owner) == {} && r.generation == Get(generations, r.owner)
                && r.binding in bindings && Registered(children, r.binding, bindings[r.binding])
                && r.owner in bindings[r.binding].authority.users && !bindings[r.binding].authority.closed
    {
      hide RunTo, Inv, Apply, Enabled, GrantVerified, Pending, GrantedRightly;
      ghost var before := State();
      RunIsSafe(states, events, before);
      FinishOwnerGrant(f, v, now);
      SessionsLeaveCalls(before, SessionVerified(f, v, now));
      SessionHappened(before, SessionVerified(f, v, now));
      GivesExactlyWhen(before, f, v, now);
      forall r | grantReplies == old(grantReplies) + [r]
        ensures Pending(ops, r.owner) == {} && r.generation == Get(generations, r.owner)
                && r.binding in bindings && Registered(children, r.binding, bindings[r.binding])
                && r.owner in bindings[r.binding].authority.users && !bindings[r.binding].authority.closed
      {
        GrantReplyFrom(before, OnSession(SessionVerified(f, v, now)), r);
        NothingPending(before, r.owner);
      }
    }

    /** The expiry timer of a grant. */
    method SessionExpires(b: BindingId, session: SessionId, now: int)
      requires Valid() && HasSession(KidState(), b, session)
      modifies this
      ensures Did(OnSession(SessionEvent.SessionExpires(b, session, now)))
      ensures b in bindings && session !in bindings[b].authority.sessions
      ensures bindings[b].authority.closed || session in bindings[b].authority.tombstones
    {
      hide RunTo, Inv, Apply, Enabled, Expire, AuthorityInv;
      ghost var before := State();
      RunIsSafe(states, events, before);
      AuthorityAt(before, b);
      var a := bindings[b].authority;
      ExpireKeeps(a, session, a.sessions[session].expiresAt, now);
      SetBindingAuthority(b, Expire(a, session, a.sessions[session].expiresAt, now));
      SessionHappened(before, SessionEvent.SessionExpires(b, session, now));
    }

    // -------------------------------------------------------------- events: requests

    method RequestArrives(child: Child, u: UserId, generation: nat, operation: Operation,
                          session: Option<(SessionId, GrantId)>, genuine: bool, now: int)
      requires Valid() && Known(KidState(), child)
      modifies this
      ensures Did(OnRequest(RequestEvent.RequestArrives(child, u, generation, operation, session, genuine, now)))
      ensures KidState() == old(KidState()) && CallState() == old(CallState()) && replies == old(replies)
    {
      hide RunTo, Inv, Apply, Enabled, CheckRequest;
      ghost var before := State();
      if genuine {
        var b := children[child];
        requests := requests[nextFrame := Request(b, u, generation, operation, CheckRequest(bindings[b].authority, u, session, now))];
        nextFrame := nextFrame + 1;
      }
      RequestHappened(before, RequestEvent.RequestArrives(child, u, generation, operation, session, genuine, now));
    }

    /** A request whose session turns out inactive or superseded is denied, and the session's grant goes;
        whatever the lookup says, nobody gains authority by it. */
    method RequestIsVerified(f: int, v: Verification, now: int)
      requires Valid() && RequestEnabled(State(), RequestEvent.RequestIsVerified(f, v, now))
      modifies this
      ensures Did(OnRequest(RequestEvent.RequestIsVerified(f, v, now)))
      ensures f in requests && requests[f].binding in bindings && requests[f].binding in old(bindings)
      ensures var (a, r) := (bindings[requests[f].binding].authority, old(requests)[f]);
              && a.users <= old(bindings)[requests[f].binding].authority.users
              && r.check.Verifying? && (v == Inactive || v == Superseded ==> r.check.session !in a.sessions)
              && requests[f].check == Decided(ConfirmedAt(old(State()), OnRequest(RequestEvent.RequestIsVerified(f, v, now)), f, r.binding, r.check.session, r.check.grant))
    {
      hide RunTo, Inv, Apply, Enabled, Recheck, AuthorityInv, StillAuthorized;
      ghost var before := State();
      RunIsSafe(states, events, before);
      var r := requests[f];
      var a := bindings[r.binding].authority;
      AuthorityAt(before, r.binding);
      RecheckKeeps(a, r.check.session, r.check.grant.expiresAt, v, now);
      ConfirmedExactlyWhen(before, f, v, now);
      var authorized := StillServes(f, v, now);
      SetBindingAuthority(r.binding, Recheck(a, r.check.session, r.check.grant.expiresAt, v, now));
      requests := requests[f := r.(check := Decided(authorized))];
      RequestHappened(before, RequestEvent.RequestIsVerified(f, v, now));
    }

    /** A request is answered only under the key of the current epoch and generation, for a user with no
        call pending and no containment failure, and since the unlock behind that key nobody called `lock`. */
    method RequestResumes(f: int, fieldOk: bool, cryptoOk: bool, now: int)
      requires Valid() && RequestEnabled(State(), RequestEvent.RequestResumes(f, fieldOk, cryptoOk, now))
      modifies this
      ensures Did(OnRequest(RequestEvent.RequestResumes(f, fieldOk, cryptoOk, now)))
      ensures forall r | replies == old(replies) + [r] ::
                && r.key.epoch == Get(old(operationEpochs), r.user) && r.generation == r.key.generation == Get(old(generations), r.user)
                && r.key.expiresAt > now && Pending(old(ops), r.user) == {} && r.user !in old(containmentFailures)
                && NoLockSince(states, events, |old(events)|, r)
      ensures exists k: nat :: AnsweredRightly(states, events, k, |old(events)|, f, fieldOk, cryptoOk, now)
    {
      hide RunTo, Inv, Apply, Enabled, RequestResume, Pending, NoLockSince, AnsweredRightly;
      ghost var before := State();
      RunIsSafe(states, events, before);
      ResumeRequest(f, fieldOk, cryptoOk, now);
      RequestHappened(before, RequestEvent.RequestResumes(f, fieldOk, cryptoOk, now));
      ghost var k := AnswerNow(old(states), old(events), before, f, fieldOk, cryptoOk, now);
      forall r | replies == old(replies) + [r]
        ensures r.key.epoch == Get(old(operationEpochs), r.user) && r.generation == r.key.generation == Get(old(generations), r.user)
                && r.key.expiresAt > now && Pending(old(ops), r.user) == {} && r.user !in old(containmentFailures)
                && NoLockSince(states, events, |old(events)|, r)
      {
        ReplyNow(old(states), old(events), before, OnRequest(RequestEvent.RequestResumes(f, fieldOk, cryptoOk, now)), r);
      }
    }

    /** The count of requests inside `state` stays exact. */
    method StateReturns(f: int)
      requires Valid() && RequestEnabled(State(), RequestEvent.StateReturns(f))
      modifies this
      ensures Did(OnRequest(RequestEvent.StateReturns(f)))
      ensures forall b, u | b in bindings :: Get(bindings[b].inFlight, u) == |Inside(requests, b, u)|
    {
      hide RunTo, Inv, Apply, Enabled, DropInFlight, SetBinding, Inside, Get;
      ghost var before := State();
      RunIsSafe(states, events, before);
      var (b, u) := (requests[f].binding, requests[f].user);
      if u in bindings[b].inFlight { CountIsPositive(before, b, u); }
      LeaveState(b, u);
      requests := requests - {f};
      RequestHappened(before, RequestEvent.StateReturns(f));
      CountsAreExact(State());
    }
  }
}
