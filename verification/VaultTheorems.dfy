/** What the broker promises over every run. */
module VaultTheorems {
  import opened Identifiers
  import opened SessionAuthority
  import opened VaultBarrier
  import opened VaultCalls
  import opened VaultDrains
  import opened VaultSafety
  import opened VaultRuns

  // ---------------------------------------------------------------- sections

  /** Sections of one user run one at a time and in call order: when a section starts, every
      earlier call's section has ended and every later one is still queued. */
  lemma SectionsRunInCallOrder(states: seq<Broker>, events: seq<Event>, i: nat, id: OpId, reached: set<BindingId>)
    requires IsRun(states, events) && i < |events| && events[i] == OnOp(StartSection(id, reached))
    ensures var ops := states[i].calls.ops;
            && id in ops && ops[id].stage == Queued
            && (forall a | a in ops && ops[a].user == ops[id].user && a < id :: Finished(ops[a]))
            && (forall a | a in ops && ops[a].user == ops[id].user && a > id :: ops[a].stage == Queued)
  {
    hide Apply, Inv;
    RunKeeps(states, events, i, i);
    StartsAlone(states[i], id);
  }

  lemma StartsAlone(s: Broker, id: OpId)
    requires Inv(s) && CanStart(s.calls, id)
    ensures var ops := s.calls.ops;
            && (forall a | a in ops && ops[a].user == ops[id].user && a < id :: Finished(ops[a]))
            && (forall a | a in ops && ops[a].user == ops[id].user && a > id :: ops[a].stage == Queued)
  {
    hide KidInv, FrameInv, DepthInv, EpochInv, GenInv, KeyInv;
    var c := s.calls;
    PredecessorsFinished(c, id);
    OnlyOneSection(c.ops, c.tails, c.nextOp, id);
  }

  /** The generations carried by successive drains for one user strictly increase. */
  lemma DrainedGenerationsIncrease(states: seq<Broker>, events: seq<Event>, i: nat, m: nat, n: nat)
    requires IsRun(states, events) && i < |states| && m < n < |states[i].calls.drains|
    requires states[i].calls.drains[m].user == states[i].calls.drains[n].user
    ensures states[i].calls.drains[m].generation < states[i].calls.drains[n].generation
  {
    hide IsRun, Inv;
    RunKeeps(states, events, i, i);
    DrainsIncrease(states[i]);
  }

  lemma DrainsIncrease(s: Broker)
    requires Inv(s)
    ensures Increasing(s.calls.drains)
  {
    hide KidInv, FrameInv, OpsInv, DepthInv, EpochInv, KeyInv;
  }

  /** Every `drainChildren` call is in that log, with the generation it carries. */
  lemma DrainsAreLogged(states: seq<Broker>, events: seq<Event>, i: nat, id: OpId, reached: set<BindingId>)
    requires IsRun(states, events) && i < |events| && events[i] == OnOp(StartSection(id, reached))
    requires id in states[i + 1].calls.ops && states[i + 1].calls.ops[id].stage == Draining
    ensures var op := states[i + 1].calls.ops[id];
            states[i + 1].calls.drains == states[i].calls.drains + [Drain(op.user, op.generation, id)]
  {
    hide SectionStart, SendLocks, IsRun;
    RunStep(states, events, i);
    SectionCases(states[i], id, reached);
  }

  /** The step makes a call of `lock` for `u`: by itself, or because a key has expired. */
  predicate Locks(s: Broker, e: Event, u: UserId) {
    e == OnOp(CallLock(u)) || (e.OnRequest? && e.request.RequestResumes? && ExpiresKey(s, e.request, u))
  }

  predicate ExpiresKey(s: Broker, e: RequestEvent, u: UserId)
    requires e.RequestResumes?
  {
    && RequestAt(s, e.frame)
    && var r := s.frames.requests[e.frame];
       Admissible(s.calls, r, e.fieldOk) && r.operation != Rewrap && r.operation != State
       && r.user == u && u in s.calls.unlocked && !ActiveKey(s.calls, u, e.now)
  }

  lemma LockRaisesEpoch(s: Broker, e: Event, u: UserId)
    requires Enabled(s, e) && Locks(s, e, u)
    ensures Get(Apply(s, e).calls.epochs, u) == Get(s.calls.epochs, u) + 1
  {
    if e != OnOp(CallLock(u)) {
      var r := s.frames.requests[e.request.frame];
      assert Apply(s, e) == RequestResume(s, e.request.frame, e.request.fieldOk, e.request.cryptoOk, e.request.now);
    }
  }

  /** Once `lock` has been called, a pending `unlock` is outdated for good. */
  lemma LockOutdates(states: seq<Broker>, events: seq<Event>, i: nat, j: nat, id: OpId)
    requires IsRun(states, events) && i < j < |states| && id in states[i].calls.ops && states[i].calls.ops[id].kind.Cache?
    requires Locks(states[i], events[i], states[i].calls.ops[id].user)
    ensures id in states[j].calls.ops && Outdated(states[j].calls, id)
    ensures SameCall(states[i].calls.ops[id], states[j].calls.ops[id])
  {
    hide Inv, KidsGrow, FramesGrow, Apply, Enabled, Locks;
    var u := states[i].calls.ops[id].user;
    RunKeeps(states, events, i, j);
    RunKeeps(states, events, i + 1, j);
    LockRaisesEpoch(states[i], events[i], u);
    EpochOf(states[i], id);
    assert SameCall(states[i].calls.ops[id], states[j].calls.ops[id]);
    assert Get(states[i + 1].calls.epochs, u) <= Get(states[j].calls.epochs, u);
  }

  lemma EpochOf(s: Broker, id: OpId)
    requires Inv(s) && id in s.calls.ops
    ensures s.calls.ops[id].kind.epoch <= Get(s.calls.epochs, s.calls.ops[id].user)
  {
    hide KidInv, FrameInv, OpsInv, DepthInv, GenInv, KeyInv;
  }

  /** A cache whose section starts after a later `lock` does nothing: no generation, no drain, no key. */
  lemma SupersededCacheNeverDrains(states: seq<Broker>, events: seq<Event>, i: nat, j: nat, id: OpId, reached: set<BindingId>)
    requires IsRun(states, events) && i < j < |events| && id in states[i].calls.ops && states[i].calls.ops[id].kind.Cache?
    requires Locks(states[i], events[i], states[i].calls.ops[id].user) && events[j] == OnOp(StartSection(id, reached))
    ensures id in states[j].calls.ops
    ensures var c := states[j].calls;
            states[j + 1] == states[j].(calls := c.(ops := c.ops[id := c.ops[id].(stage := Done)]))
  {
    hide Inv, Locks;
    LockOutdates(states, events, i, j, id);
    assert states[j + 1] == SectionStart(states[j], id, reached);
  }

  /** One that was already draining installs and publishes nothing. */
  lemma SupersededCacheNeverInstalls(states: seq<Broker>, events: seq<Event>, i: nat, j: nat, id: OpId, expiresAt: int)
    requires IsRun(states, events) && i < j < |events| && id in states[i].calls.ops && states[i].calls.ops[id].kind.Cache?
    requires Locks(states[i], events[i], states[i].calls.ops[id].user) && events[j] == OnOp(Drained(id, expiresAt))
    ensures states[j + 1].calls.unlocked == states[j].calls.unlocked
    ensures states[j + 1].calls.published == states[j].calls.published
    ensures id in states[j + 1].calls.ops && !states[j + 1].calls.ops[id].outcome
  {
    hide Inv, Locks, IsRun, BarrierComplete;
    RunStep(states, events, j);
    LockOutdates(states, events, i, j, id);
  }

  lemma RunLength(states: seq<Broker>, events: seq<Event>)
    requires IsRun(states, events)
    ensures |states| == |events| + 1
  {
    hide Enabled, Apply;
  }

  lemma RunStep(states: seq<Broker>, events: seq<Event>, j: nat)
    requires IsRun(states, events) && j < |events|
    ensures |states| == |events| + 1
    ensures Enabled(states[j], events[j]) && states[j + 1] == Apply(states[j], events[j])
  {
    hide Enabled, Apply;
  }

  /** A cache that installs a key publishes exactly the current generation, to every registered
      child that may act for the user, and the key carries that generation. */
  lemma InstallPublishesCurrentGeneration(states: seq<Broker>, events: seq<Event>, j: nat, id: OpId, expiresAt: int)
    requires IsRun(states, events) && j < |events| && events[j] == OnOp(Drained(id, expiresAt))
    requires id in states[j + 1].calls.ops && states[j + 1].calls.ops[id].kind.Cache? && states[j + 1].calls.ops[id].outcome
    ensures var (s, t) := (states[j], states[j + 1]);
            var u := t.calls.ops[id].user;
            && u in t.calls.unlocked && u !in s.calls.unlocked && u !in t.calls.contained
            && t.calls.unlocked[u].generation == Get(t.calls.generations, u)
            && t.calls.unlocked[u].epoch == Get(t.calls.epochs, u)
            && t.calls.published == s.calls.published
                 + [Publication(u, Get(t.calls.generations, u), Recipients(s.kids.bindings, s.kids.children, u))]
  {
    hide Inv, IsRun, BarrierComplete, Recipients, SectionEnd;
    RunStep(states, events, j);
    RunKeeps(states, events, j, j);
    var s := states[j];
    var to := Recipients(s.kids.bindings, s.kids.children, s.calls.ops[id].user);
    EndOutcome(s.calls, id, BarrierComplete(s.kids, id), expiresAt, to);
    InstalledIsCurrent(s, id);
    EndInstalls(s.calls, id, BarrierComplete(s.kids, id), expiresAt, to);
  }

  lemma EndOutcome(c: Calls, id: OpId, complete: bool, expiresAt: int, to: set<BindingId>)
    requires id in c.ops
    ensures var d := SectionEnd(c, id, complete, expiresAt, to);
            id in d.ops && d.ops[id] == c.ops[id].(stage := Done, outcome := Succeeds(c, id, complete))
            && d.generations == c.generations && d.epochs == c.epochs
  {
    hide Outdated, Contain;
  }

  lemma EndInstalls(c: Calls, id: OpId, complete: bool, expiresAt: int, to: set<BindingId>)
    requires id in c.ops && c.ops[id].kind.Cache? && Succeeds(c, id, complete)
    ensures var (d, op) := (SectionEnd(c, id, complete, expiresAt, to), c.ops[id]);
            && op.user !in d.contained && op.user in d.unlocked
            && d.unlocked[op.user] == InstalledKey(op.kind.unlock, op.kind.epoch, op.generation, expiresAt)
            && d.published == c.published + [Publication(op.user, op.generation, to)]
  {
    hide Get;
  }

  lemma InstalledIsCurrent(s: Broker, id: OpId)
    requires Inv(s) && id in s.calls.ops && s.calls.ops[id].stage == Draining && s.calls.ops[id].kind.Cache?
    ensures s.calls.ops[id].user !in s.calls.unlocked
    ensures !Outdated(s.calls, id) ==> s.calls.ops[id].generation == Get(s.calls.generations, s.calls.ops[id].user)
  {
    hide KidInv, FrameInv, OpsInv, DepthInv, EpochInv, GenInv, KeyInv;
    NoKeyWhileCaching(s.calls, id);
    if !Outdated(s.calls, id) { InstallsCurrentGeneration(s.calls, id); }
  }

  // ---------------------------------------------------------------- keys and replies

  /** `lockDepth` is the number of unfinished `lock` and `cache` calls. */
  lemma DepthCountsPendingCalls(states: seq<Broker>, events: seq<Event>, i: nat, u: UserId)
    requires IsRun(states, events) && i < |states|
    ensures Get(states[i].calls.depth, u) == |Pending(states[i].calls.ops, u)|
  {
    hide IsRun, Inv;
    RunKeeps(states, events, i, i);
    DepthOf(states[i], u);
  }

  lemma DepthOf(s: Broker, u: UserId)
    requires Inv(s)
    ensures Get(s.calls.depth, u) == |Pending(s.calls.ops, u)|
  {
    hide KidInv, FrameInv, OpsInv, EpochInv, GenInv, KeyInv;
  }

  /** What the `finally` blocks leave: a user has a depth exactly while a call is pending, and a tail only
      while the last call of the chain is. */
  lemma NothingIsLeftBehind(states: seq<Broker>, events: seq<Event>, i: nat, u: UserId)
    requires IsRun(states, events) && i < |states|
    ensures var c := states[i].calls;
            && (u in c.depth <==> Pending(c.ops, u) != {})
            && (u in c.tails ==> c.tails[u] in Pending(c.ops, u) && forall a | a in c.ops && c.ops[a].user == u :: a <= c.tails[u])
            && (u !in c.tails ==> forall a | a in c.ops && c.ops[a].user == u :: Finished(c.ops[a]))
  {
    hide IsRun, Inv;
    RunKeeps(states, events, i, i);
    TailOf(states[i], u);
  }

  lemma TailOf(s: Broker, u: UserId)
    requires Inv(s)
    ensures var c := s.calls;
            && (u in c.depth <==> Pending(c.ops, u) != {})
            && (u in c.tails ==> c.tails[u] in Pending(c.ops, u) && forall a | a in c.ops && c.ops[a].user == u :: a <= c.tails[u])
            && (u !in c.tails ==> forall a | a in c.ops && c.ops[a].user == u :: Finished(c.ops[a]))
  {
    hide KidInv, FrameInv, Ordered, Chained, EpochInv, GenInv, KeyInv;
    DepthOf(s, u);
    assert |Pending(s.calls.ops, u)| == 0 <==> Pending(s.calls.ops, u) == {};
  }

  /** A key read under an older epoch exists only while a lock section is still pending. */
  lemma StaleKeyHasLockPending(states: seq<Broker>, events: seq<Event>, i: nat, u: UserId)
    requires IsRun(states, events) && i < |states| && u in states[i].calls.unlocked
    ensures var (c, key) := (states[i].calls, states[i].calls.unlocked[u]);
            && u !in c.contained && key.epoch <= Get(c.epochs, u)
            && (key.epoch < Get(c.epochs, u) ==> LockAhead(c.ops, u) && Get(c.depth, u) > 0)
            && (key.epoch == Get(c.epochs, u) ==> key.generation == Get(c.generations, u))
  {
    hide IsRun, Inv;
    RunKeeps(states, events, i, i);
    StaleKey(states[i], u);
  }

  lemma StaleKey(s: Broker, u: UserId)
    requires Inv(s) && u in s.calls.unlocked
    ensures var (c, key) := (s.calls, s.calls.unlocked[u]);
            && GoodKey(c.ops, c.unlocks, Get(c.epochs, u), Get(c.generations, u), u, key) && u !in c.contained
            && (LockAhead(c.ops, u) ==> Get(c.depth, u) > 0)
  {
    hide KidInv, FrameInv, OpsInv, EpochInv, GenInv, DepthInv;
    var c := s.calls;
    if LockAhead(c.ops, u) {
      var a :| a in c.ops && c.ops[a].user == u && c.ops[a].kind.Lock? && !Finished(c.ops[a]);
      if Get(c.depth, u) == 0 { QuietUser(c.ops, c.depth, u); }
    }
  }

  /** The step sends a successful encrypt or decrypt reply. */
  ghost predicate Replies(s: Broker, t: Broker, r: Reply) { t.frames.replies == s.frames.replies + [r] }

  /** Every successful reply uses the key of the current epoch and generation, asked for under
      that generation, for a user with no pending call and no containment failure. */
  lemma ReplyIsCurrent(states: seq<Broker>, events: seq<Event>, i: nat, r: Reply)
    requires IsRun(states, events) && i < |events| && Replies(states[i], states[i + 1], r)
    ensures var c := states[i].calls;
            && r.user in c.unlocked && c.unlocked[r.user] == r.key
            && r.generation == Get(c.generations, r.user) == r.key.generation
            && r.key.epoch == Get(c.epochs, r.user)
            && r.user !in c.contained
            && Pending(c.ops, r.user) == {}
            && events[i].OnRequest? && events[i].request.RequestResumes? && r.key.expiresAt > events[i].request.now
            && r.key.unlock in c.unlocks && c.unlocks[r.key.unlock].user == r.user && c.unlocks[r.key.unlock].epoch == r.key.epoch
  {
    hide IsRun, Inv, Pending, GoodKey;
    RunStep(states, events, i);
    RunKeeps(states, events, i, i);
    ReplyFrom(states[i], events[i], r);
    StaleKey(states[i], r.user);
    KeyFacts(states[i], r.user);
    DepthOf(states[i], r.user);
  }

  lemma KeyFacts(s: Broker, u: UserId)
    requires Inv(s) && u in s.calls.unlocked && Get(s.calls.depth, u) == 0
    ensures var (c, key) := (s.calls, s.calls.unlocked[u]);
            && key.generation == Get(c.generations, u) && key.epoch == Get(c.epochs, u)
            && key.unlock in c.unlocks && c.unlocks[key.unlock].user == u && c.unlocks[key.unlock].epoch == key.epoch
  {
    hide Inv, LockAhead;
    StaleKey(s, u);
  }

  lemma ReplyFrom(s: Broker, e: Event, r: Reply)
    requires Enabled(s, e) && Replies(s, Apply(s, e), r)
    ensures r.user in s.calls.unlocked && s.calls.unlocked[r.user] == r.key
    ensures r.generation == Get(s.calls.generations, r.user) && Get(s.calls.depth, r.user) == 0
    ensures e.OnRequest? && e.request.RequestResumes? && r.key.expiresAt > e.request.now
  {
    hide OpApply, ChildApply, LockCall;
    var t := Apply(s, e);
    assert |t.frames.replies| == |s.frames.replies| + 1;
    match e
    case OnOp(o) => OpRepliesNothing(s, o);
    case OnChild(c) =>
    case OnSession(x) =>
    case OnRequest(q) =>
      assert q.RequestResumes?;
      assert t.frames.replies[|s.frames.replies|] == r;
  }

  lemma OpRepliesNothing(s: Broker, o: OpEvent)
    requires OpEnabled(s, o)
    ensures OpApply(s, o).frames == s.frames
  {
  }

  /** The unlock behind a key began at a step of the run. */
  lemma {:induction false} UnlockBegan(states: seq<Broker>, events: seq<Event>, i: nat, n: int) returns (k: nat)
    requires IsRun(states, events) && i < |states| && n in states[i].calls.unlocks
    ensures k < i && states[k].calls.nextUnlock == n
    ensures events[k] == OnOp(StartUnlock(states[i].calls.unlocks[n].user))
    ensures Get(states[k].calls.epochs, states[i].calls.unlocks[n].user) == states[i].calls.unlocks[n].epoch
  {
    hide Inv, Apply, Enabled;
    if i > 0 {
      RunKeeps(states, events, i - 1, i);
      if n in states[i - 1].calls.unlocks {
        k := UnlockBegan(states, events, i - 1, n);
      } else {
        NewUnlockFrom(states[i - 1], events[i - 1], n);
        k := i - 1;
      }
    }
  }

  lemma NewUnlockFrom(s: Broker, e: Event, n: int)
    requires Enabled(s, e) && n !in s.calls.unlocks && n in Apply(s, e).calls.unlocks
    ensures var t := Apply(s, e);
            s.calls.nextUnlock == n && e == OnOp(StartUnlock(t.calls.unlocks[n].user))
            && Get(s.calls.epochs, t.calls.unlocks[n].user) == t.calls.unlocks[n].epoch
  {
    hide ChildApply, SessionApply, OpApply, RequestApply;
    match e
    case OnOp(o) => OpUnlocks(s, o);
    case OnChild(c) =>
    case OnSession(x) => SessionsLeaveCalls(s, x);
    case OnRequest(q) => RequestCalls(s, q);
  }

  /** Only the start of an unlock adds one. */
  lemma OpUnlocks(s: Broker, o: OpEvent)
    requires OpEnabled(s, o)
    ensures var d := OpApply(s, o).calls;
            if o.StartUnlock? then d == BeginUnlock(s.calls, o.user) else d.unlocks.Keys == s.calls.unlocks.Keys
  {
    hide SectionStart, SectionEnd, Recipients, BarrierComplete;
    if o.StartSection? { StartLeaves(s, o.op, o.reached); }
    if o.Drained? {
      EndLeavesUnlocks(s.calls, o.op, BarrierComplete(s.kids, o.op), o.expiresAt,
                       Recipients(s.kids.bindings, s.kids.children, s.calls.ops[o.op].user));
    }
    if o.DrainThrew? { EndLeavesUnlocks(s.calls, o.op, false, 0, {}); }
  }

  lemma EndLeavesUnlocks(c: Calls, id: OpId, complete: bool, expiresAt: int, to: set<BindingId>)
    requires id in c.ops
    ensures SectionEnd(c, id, complete, expiresAt, to).unlocks == c.unlocks
  {
  }

  lemma StartLeaves(s: Broker, id: OpId, reached: set<BindingId>)
    requires CanStart(s.calls, id)
    ensures var d := SectionStart(s, id, reached).calls;
            d.unlocks == s.calls.unlocks && d.contained == s.calls.contained
  {
    hide SendLocks, SectionStart, Get;
    SectionCases(s, id, reached);
  }

  /** A request changes nothing about the calls, except that an expired key starts a lock. */
  lemma RequestCalls(s: Broker, q: RequestEvent)
    requires RequestEnabled(s, q)
    ensures var d := RequestApply(s, q).calls;
            d == s.calls || (q.RequestResumes? && RequestAt(s, q.frame) && d == LockCall(s.calls, s.frames.requests[q.frame].user))
    ensures RequestApply(s, q).calls.unlocks == s.calls.unlocks && RequestApply(s, q).calls.contained == s.calls.contained
  {
  }

  lemma SessionsLeaveCalls(s: Broker, x: SessionEvent)
    requires SessionEnabled(s, x)
    ensures SessionApply(s, x).calls == s.calls
  {
  }

  /** So no `lock` was called between the start of the unlock that installed a reply's key and the reply. */
  lemma NoLockSinceUnlock(states: seq<Broker>, events: seq<Event>, i: nat, r: Reply) returns (k: nat)
    requires IsRun(states, events) && i < |events| && Replies(states[i], states[i + 1], r)
    ensures k < i && events[k] == OnOp(StartUnlock(r.user)) && states[k].calls.nextUnlock == r.key.unlock
    ensures forall j | k <= j < i :: !Locks(states[j], events[j], r.user)
  {
    hide IsRun, Inv, Apply, Enabled, Locks, Pending, KidsGrow, FramesGrow;
    RunStep(states, events, i);
    ReplyIsCurrent(states, events, i, r);
    k := UnlockBegan(states, events, i, r.key.unlock);
    forall j | k <= j < i ensures !Locks(states[j], events[j], r.user) {
      RunKeeps(states, events, k, j);
      RunKeeps(states, events, j + 1, i);
      RunStep(states, events, j);
      assert Get(states[k].calls.epochs, r.user) <= Get(states[j].calls.epochs, r.user);
      assert Get(states[j + 1].calls.epochs, r.user) <= Get(states[i].calls.epochs, r.user);
      if Locks(states[j], events[j], r.user) { LockRaisesEpoch(states[j], events[j], r.user); }
    }
  }

  // ---------------------------------------------------------------- drains

  /** The section that starts at step `i` drains and its drain returns at step `j`. */
  ghost predicate DrainBetween(states: seq<Broker>, events: seq<Event>, i: nat, j: nat, id: OpId) {
    && IsRun(states, events) && i < j < |events|
    && events[i].OnOp? && events[i].op.StartSection? && events[i].op.op == id
    && id in states[i + 1].calls.ops && states[i + 1].calls.ops[id].stage == Draining
    && events[j].OnOp? && events[j].op.Drained? && events[j].op.op == id
  }

  /** The drain's user and generation, fixed when it starts. */
  ghost function DrainUser(states: seq<Broker>, i: nat, id: OpId): UserId
    requires i + 1 < |states| && id in states[i + 1].calls.ops
  {
    states[i + 1].calls.ops[id].user
  }

  ghost function DrainGeneration(states: seq<Broker>, i: nat, id: OpId): nat
    requires i + 1 < |states| && id in states[i + 1].calls.ops
  {
    states[i + 1].calls.ops[id].generation
  }

  /** What the drain waits for at its end is what was exposed when it began. */
  lemma DrainWaits(states: seq<Broker>, events: seq<Event>, i: nat, j: nat, id: OpId)
    requires DrainBetween(states, events, i, j, id)
    ensures j < |events| == |states| - 1 && DrainSettled(states[j], id) && Inv(states[j])
    ensures states[j].kids.waits[id].Keys == ExposedTo(states[i].kids.bindings, states[i].kids.children, DrainUser(states, i, id))
    ensures states[j].calls.ops[id].user == DrainUser(states, i, id)
    ensures states[j].calls.ops[id].generation == DrainGeneration(states, i, id)
    ensures states[j].calls.ops[id].horizon == states[i].kids.nextBinding
  {
    hide Inv, IsRun, FramesGrow, ExposedTo;
    RunStep(states, events, i);
    RunStep(states, events, j);
    RunKeeps(states, events, i + 1, j);
    StartWaits(states[i], id, events[i].op.reached);
    assert SameCall(states[i + 1].calls.ops[id], states[j].calls.ops[id]);
  }

  lemma SentWaits(k: Kids, id: OpId, u: UserId, generation: nat, reached: set<BindingId>)
    ensures var r := SendLocks(k, id, u, generation, reached);
            id in r.waits && r.waits[id].Keys == ExposedTo(k.bindings, k.children, u)
  {
  }

  lemma StartWaits(s: Broker, id: OpId, reached: set<BindingId>)
    requires CanStart(s.calls, id)
    requires var t := SectionStart(s, id, reached); id in t.calls.ops && t.calls.ops[id].stage == Draining
    ensures var t := SectionStart(s, id, reached);
            id in t.kids.waits && t.calls.ops[id].horizon == s.kids.nextBinding
            && t.kids.waits[id].Keys == ExposedTo(s.kids.bindings, s.kids.children, t.calls.ops[id].user)
  {
    hide SectionStart, ExposedTo, Get;
    SectionCases(s, id, reached);
    SentWaits(s.kids, id, s.calls.ops[id].user, SectionStart(s, id, reached).calls.ops[id].generation, reached);
  }

  /** When `drainChildren` returns true, every binding exposed at its start has acknowledged
      exactly that lock id, user and generation, or is out of the registry because its child
      has exited or never got its capability. */
  lemma CompleteDrainCovers(states: seq<Broker>, events: seq<Event>, i: nat, j: nat, id: OpId, b: BindingId)
    requires DrainBetween(states, events, i, j, id) && id in states[j].kids.waits && BarrierComplete(states[j].kids, id)
    requires b in ExposedTo(states[i].kids.bindings, states[i].kids.children, DrainUser(states, i, id))
    ensures var k := states[j].kids;
            || Ack(b, (id, b), DrainUser(states, i, id), DrainGeneration(states, i, id)) in k.acks
            || (b in k.bindings && !Registered(k.children, b, k.bindings[b])
                && (k.bindings[b].child in k.exited || !k.bindings[b].capabilitySent))
  {
    hide IsRun, Inv, ExposedTo;
    DrainWaits(states, events, i, j, id);
    SettledWait(states[j], id, b);
  }

  lemma SettledWait(s: Broker, id: OpId, b: BindingId)
    requires Inv(s) && id in s.kids.waits && b in s.kids.waits[id]
    ensures id in s.calls.ops && b in s.kids.bindings
    ensures GoodWait(s.calls.ops, s.kids.bindings, s.kids.children, s.kids.acks, id, b, s.kids.waits[id][b])
    ensures GoodBinding(b, s.kids.bindings[b], s.kids.children, s.kids.exited)
  {
    hide CallInv, FrameInv, KidInv;
    KnownWait(s.calls.ops, s.kids, id, b);
    KnownBinding(s.calls.ops, s.kids, b);
  }

  /** When it returns false there is an exposed binding whose child could not be proven to have
      exited; the user is contained and has no key. */
  lemma IncompleteDrainContains(states: seq<Broker>, events: seq<Event>, i: nat, j: nat, id: OpId) returns (b: BindingId)
    requires DrainBetween(states, events, i, j, id) && id in states[j].kids.waits && !BarrierComplete(states[j].kids, id)
    ensures b in ExposedTo(states[i].kids.bindings, states[i].kids.children, DrainUser(states, i, id))
    ensures b in states[j].kids.waits[id] && states[j].kids.waits[id][b] == Unproven
    ensures LiveIsRegistered(states[j].kids, b)
    ensures DrainUser(states, i, id) in states[j + 1].calls.contained
    ensures DrainUser(states, i, id) !in states[j + 1].calls.unlocked
  {
    hide Inv, ExposedTo, IsRun, Apply, Enabled, DrainUser, LiveIsRegistered, GoodWait, GoodBinding;
    DrainWaits(states, events, i, j, id);
    b :| b in states[j].kids.waits[id] && states[j].kids.waits[id][b] == Unproven;
    SettledWait(states[j], id, b);
    GoodIsRegistered(states[j].kids, b);
    RunStep(states, events, j);
    EndContains(states[j], id, events[j].op.expiresAt);
    RunKeeps(states, events, j + 1, j + 1);
    ContainedHasNoKey(states[j + 1], DrainUser(states, i, id));
  }

  lemma EndContains(s: Broker, id: OpId, expiresAt: int)
    requires DrainSettled(s, id) && !BarrierComplete(s.kids, id)
    ensures s.calls.ops[id].user in Apply(s, OnOp(Drained(id, expiresAt))).calls.contained
  {
    hide BarrierComplete, Recipients, DrainSettled;
  }

  lemma GoodIsRegistered(k: Kids, b: BindingId)
    requires b in k.bindings && GoodBinding(b, k.bindings[b], k.children, k.exited)
    ensures LiveIsRegistered(k, b)
  {
  }

  /** A child that was sent its capability and has not exited is in the registry. */
  ghost predicate LiveIsRegistered(k: Kids, b: BindingId) {
    b in k.bindings && (k.bindings[b].capabilitySent && k.bindings[b].child !in k.exited ==> Registered(k.children, b, k.bindings[b]))
  }

  lemma LiveChildrenStayRegistered(states: seq<Broker>, events: seq<Event>, i: nat, b: BindingId)
    requires IsRun(states, events) && i < |states| && b in states[i].kids.bindings
    ensures LiveIsRegistered(states[i].kids, b)
  {
    hide Inv, IsRun;
    RunKeeps(states, events, i, i);
    GoodAt(states[i], b);
  }

  lemma GoodAt(s: Broker, b: BindingId)
    requires Inv(s) && b in s.kids.bindings
    ensures GoodBinding(b, s.kids.bindings[b], s.kids.children, s.kids.exited)
  {
    hide CallInv, FrameInv, KidInv;
    KnownBinding(s.calls.ops, s.kids, b);
  }

  lemma ContainedHasNoKey(s: Broker, u: UserId)
    requires Inv(s) && u in s.calls.contained
    ensures u !in s.calls.unlocked
  {
    hide KidInv, FrameInv, OpsInv, EpochInv, GenInv, DepthInv;
  }

  /** The drain of a call for `u` returns true at this step. */
  ghost predicate CompletesFor(s: Broker, e: Event, u: UserId) {
    && e.OnOp? && e.op.Drained? && DrainSettled(s, e.op.op)
    && s.calls.ops[e.op.op].user == u && BarrierComplete(s.kids, e.op.op)
  }

  /** Once contained, a user has no key until a later barrier completes. */
  lemma {:induction false} NoKeyUntilBarrierCompletes(states: seq<Broker>, events: seq<Event>, j: nat, k: nat, u: UserId)
    requires IsRun(states, events) && j <= k <= |events| && u in states[j].calls.contained
    requires forall m | j <= m < k :: !CompletesFor(states[m], events[m], u)
    ensures u in states[k].calls.contained && u !in states[k].calls.unlocked
  {
    hide Inv, IsRun, CompletesFor;
    if j < k {
      NoKeyUntilBarrierCompletes(states, events, j, k - 1, u);
      RunStep(states, events, k - 1);
      StaysContained(states[k - 1], events[k - 1], u);
    }
    RunLength(states, events);
    RunKeeps(states, events, k, k);
    ContainedHasNoKey(states[k], u);
  }

  lemma StaysContained(s: Broker, e: Event, u: UserId)
    requires Enabled(s, e) && u in s.calls.contained && !CompletesFor(s, e, u)
    ensures u in Apply(s, e).calls.contained
  {
    hide ChildApply, SessionApply, OpApply, RequestApply, CompletesFor;
    match e
    case OnOp(o) => OpContains(s, o, u);
    case OnChild(c) =>
    case OnSession(x) => SessionsLeaveCalls(s, x);
    case OnRequest(q) => RequestCalls(s, q);
  }

  lemma OpContains(s: Broker, o: OpEvent, u: UserId)
    requires OpEnabled(s, o) && u in s.calls.contained && !CompletesFor(s, OnOp(o), u)
    ensures u in OpApply(s, o).calls.contained
  {
    hide SectionStart, SectionEnd, LockCall, BeginUnlock, CacheCall, OpReturn, Recipients, BarrierComplete;
    match o
    case CallLock(v) => CallsContain(s.calls, v);
    case StartUnlock(v) => CallsContain(s.calls, v);
    case CallCache(n) => CacheContains(s.calls, n);
    case StartSection(id, reached) => StartLeaves(s, id, reached);
    case Drained(id, expiresAt) =>
      SectionContains(s.calls, id, BarrierComplete(s.kids, id), expiresAt,
                      Recipients(s.kids.bindings, s.kids.children, s.calls.ops[id].user), u);
    case DrainThrew(id) => SectionContains(s.calls, id, false, 0, {}, u);
    case Return(id) => ReturnContains(s.calls, id);
  }

  lemma CallsContain(c: Calls, v: UserId)
    ensures LockCall(c, v).contained == c.contained && BeginUnlock(c, v).contained == c.contained
  {
  }

  lemma CacheContains(c: Calls, n: int)
    requires CanCache(c, n)
    ensures CacheCall(c, n).contained == c.contained
  {
  }

  lemma ReturnContains(c: Calls, id: OpId)
    requires id in c.ops
    ensures OpReturn(c, id).contained == c.contained
  {
  }

  lemma SectionContains(c: Calls, id: OpId, complete: bool, expiresAt: int, to: set<BindingId>, u: UserId)
    requires id in c.ops && u in c.contained && !(complete && u == c.ops[id].user)
    ensures u in SectionEnd(c, id, complete, expiresAt, to).contained
  {
    hide SectionEnd, Contain;
    EndsContained(c, id, complete, expiresAt, to);
    StaysIn(c.contained, u, c.ops[id].user, complete);
  }

  lemma EndsContained(c: Calls, id: OpId, complete: bool, expiresAt: int, to: set<BindingId>)
    requires id in c.ops
    ensures SectionEnd(c, id, complete, expiresAt, to).contained == Contain(c.contained, c.ops[id].user, complete)
  {
    hide Contain, Succeeds;
    if c.ops[id].kind.Lock? {
    } else if !Succeeds(c, id, complete) {
    } else {
    }
  }

  lemma StaysIn(contained: set<UserId>, u: UserId, v: UserId, complete: bool)
    requires u in contained && !(complete && u == v)
    ensures u in Contain(contained, v, complete)
  {
  }

  /** While a drain for `u` runs, nothing comes to expose `u` except children attached since with
      `u` among their fixed users; session grants, however slow their verification, do not. */
  lemma NothingJoinsTheDrain(states: seq<Broker>, events: seq<Event>, i: nat, id: OpId, b: BindingId)
    requires IsRun(states, events) && i < |states| && id in states[i].calls.ops && states[i].calls.ops[id].stage == Draining
    requires b in ExposedTo(states[i].kids.bindings, states[i].kids.children, states[i].calls.ops[id].user)
    ensures id in states[i].kids.waits
    ensures b in states[i].kids.waits[id]
            || (states[i].calls.ops[id].horizon <= b && states[i].calls.ops[id].user in states[i].kids.bindings[b].authority.staticUsers)
  {
    hide Inv, IsRun;
    RunKeeps(states, events, i, i);
    CoveredAt(states[i], id, b);
  }

  lemma CoveredAt(s: Broker, id: OpId, b: BindingId)
    requires Inv(s) && id in s.calls.ops && s.calls.ops[id].stage == Draining && b in s.kids.bindings
    ensures id in s.kids.waits && Covered(s.calls.ops[id], s.kids.waits[id].Keys, b, s.kids.bindings[b], s.kids.children)
  {
    hide CallInv, FrameInv, BindInv, Covered, GoodWait, GoodPending;
    assert DrainsFor(s.calls.ops, s.kids.waits, id);
  }

  /** So when the barrier completes, every child that may act for the user has acknowledged this
      generation, or was attached since the drain began. */
  lemma ExposedHaveAcknowledged(states: seq<Broker>, events: seq<Event>, i: nat, j: nat, id: OpId, b: BindingId)
    requires DrainBetween(states, events, i, j, id) && id in states[j].kids.waits && BarrierComplete(states[j].kids, id)
    requires b in ExposedTo(states[j].kids.bindings, states[j].kids.children, DrainUser(states, i, id))
    ensures || Ack(b, (id, b), DrainUser(states, i, id), DrainGeneration(states, i, id)) in states[j].kids.acks
            || (states[i].kids.nextBinding <= b && DrainUser(states, i, id) in states[j].kids.bindings[b].authority.staticUsers)
  {
    hide Inv, IsRun, Apply, Enabled, KidsGrow, FramesGrow;
    DrainWaits(states, events, i, j, id);
    CoveredAt(states[j], id, b);
    if b in states[j].kids.waits[id] { SettledWait(states[j], id, b); }
  }

  // ---------------------------------------------------------------- session authority

  /** In every state every binding keeps: `users` is the static users plus the owners of its
      grants, a tombstoned session has no grant, closed authority has no sessions, and no map
      outgrows 1024 entries. */
  lemma AuthorityHolds(states: seq<Broker>, events: seq<Event>, i: nat, b: BindingId)
    requires IsRun(states, events) && i < |states| && b in states[i].kids.bindings
    ensures AuthorityInv(states[i].kids.bindings[b].authority)
  {
    hide Inv, IsRun, AuthorityInv;
    RunKeeps(states, events, i, i);
    AuthorityAt(states[i], b);
  }

  /** Once closed, always closed and without a session. */
  lemma ClosedForGood(states: seq<Broker>, events: seq<Event>, i: nat, j: nat, b: BindingId)
    requires IsRun(states, events) && i <= j < |states|
    requires b in states[i].kids.bindings && states[i].kids.bindings[b].authority.closed
    ensures b in states[j].kids.bindings
    ensures states[j].kids.bindings[b].authority.closed && states[j].kids.bindings[b].authority.sessions == map[]
  {
    hide Inv, IsRun, CallsGrow, FramesGrow;
    RunKeeps(states, events, i, j);
    AuthorityAt(states[j], b);
  }

  /** A grant's success reply is sent only with no `lock` or `cache` pending for its owner, under
      the owner's current generation, and to a registered binding that may now act for them. */
  lemma GrantReplyIsCurrent(states: seq<Broker>, events: seq<Event>, i: nat, r: GrantReply)
    requires IsRun(states, events) && i < |events|
    requires states[i + 1].frames.grantReplies == states[i].frames.grantReplies + [r]
    ensures Pending(states[i].calls.ops, r.owner) == {}
    ensures r.generation == Get(states[i].calls.generations, r.owner)
    ensures var k := states[i + 1].kids;
            r.binding in k.bindings && Registered(k.children, r.binding, k.bindings[r.binding])
            && r.owner in k.bindings[r.binding].authority.users && !k.bindings[r.binding].authority.closed
  {
    hide Inv, IsRun, Pending;
    RunStep(states, events, i);
    RunKeeps(states, events, i, i);
    GrantReplyFrom(states[i], events[i], r);
    DepthOf(states[i], r.owner);
  }

  lemma GrantReplyFrom(s: Broker, e: Event, r: GrantReply)
    requires Inv(s) && Enabled(s, e) && Apply(s, e).frames.grantReplies == s.frames.grantReplies + [r]
    ensures Get(s.calls.depth, r.owner) == 0 && r.generation == Get(s.calls.generations, r.owner)
    ensures var k := Apply(s, e).kids;
            r.binding in k.bindings && Registered(k.children, r.binding, k.bindings[r.binding])
            && r.owner in k.bindings[r.binding].authority.users && !k.bindings[r.binding].authority.closed
  {
    hide Inv, OpApply, ChildApply, LockCall, Install, AuthorityInv;
    assert |Apply(s, e).frames.grantReplies| == |s.frames.grantReplies| + 1;
    match e
    case OnOp(o) => OpRepliesNothing(s, o);
    case OnChild(c) =>
    case OnSession(x) =>
      assert x.SessionVerified?;
      GrantReplied(s, x.frame, x.verification, x.now, r);
    case OnRequest(q) =>
  }

  lemma GrantReplied(s: Broker, f: int, v: Verification, now: int, r: GrantReply)
    requires Inv(s) && GrantAt(s, f) && GrantVerified(s, f, v, now).frames.grantReplies == s.frames.grantReplies + [r]
    ensures CanInstallGrant(s, f, v, now) && r.owner == s.frames.grants[f].request.owner && r.generation == s.frames.grants[f].generation
    ensures var k := GrantVerified(s, f, v, now).kids;
            r.binding in k.bindings && Registered(k.children, r.binding, k.bindings[r.binding])
            && r.owner in k.bindings[r.binding].authority.users && !k.bindings[r.binding].authority.closed
  {
    hide Inv, Install, AuthorityInv, Prune, Settle;
    var g := s.frames.grants[f];
    assert |GrantVerified(s, f, v, now).frames.grantReplies| == |s.frames.grantReplies| + 1;
    var a := s.kids.bindings[g.binding].authority;
    var (b, outcome) := Install(a, g.request, now, s.frames.nextFrame);
    AuthorityAt(s, g.binding);
    InstallKeeps(a, g.request, now, s.frames.nextFrame);
    InstallLeavesOpen(a, g.request, now, s.frames.nextFrame);
    assert GrantVerified(s, f, v, now).frames.grantReplies[|s.frames.grantReplies|] == r;
  }

  lemma InstallLeavesOpen(a: Authority, m: GrantRequest, now: int, newId: GrantId)
    requires !a.closed
    ensures var (b, outcome) := Install(a, m, now, newId); !outcome.Denied? ==> !b.closed
  {
  }
}
