/** What every call of `lock` and `cache` and every section keeps. */
module VaultCalls {
  import opened Identifiers
  import opened SessionAuthority
  import opened VaultBarrier

  type Ops = map<OpId, Op>
  type Bindings = map<BindingId, Binding>
  type Children = map<Child, BindingId>
  type Waits = map<OpId, map<BindingId, Wait>>

  /** Two calls for one user, the second made later. */
  ghost predicate Later(ops: Ops, a: OpId, b: OpId) {
    a in ops && b in ops && ops[a].user == ops[b].user && a < b
  }

  // ---------------------------------------------------------------- section order

  /** Sections of one user run one at a time and in call order: whatever has left the queue
      has only finished predecessors. The promise chain `prev`/`tails` is what ensures it. */
  ghost predicate OpsInv(ops: Ops, tails: map<UserId, OpId>, nextOp: OpId) {
    (forall a | a in ops :: a < nextOp) && Ordered(ops) && Chained(ops) && EndsAtTails(ops, tails)
  }

  ghost predicate Ordered(ops: Ops) { forall a, b | Later(ops, a, b) && ops[b].stage != Queued :: Finished(ops[a]) }

  ghost predicate Chained(ops: Ops) {
    && (forall a, b | Later(ops, a, b) && ops[b].prev == None :: Finished(ops[a]))
    && (forall b | b in ops && ops[b].prev.Some? :: Later(ops, ops[b].prev.value, b))
    && (forall a, b | Later(ops, a, b) && ops[b].prev.Some? :: a <= ops[b].prev.value)
  }

  ghost predicate EndsAtTails(ops: Ops, tails: map<UserId, OpId>) {
    && (forall u | u in tails :: tails[u] in ops && ops[tails[u]].user == u && ops[tails[u]].stage != Returned)
    && (forall a | a in ops && ops[a].user in tails :: a <= tails[ops[a].user])
    && (forall a | a in ops && ops[a].user !in tails :: Finished(ops[a]))
  }

  /** A call joins the end of its user's chain. */
  ghost predicate Joins(ops: Ops, tails: map<UserId, OpId>, nextOp: OpId, op: Op) {
    OpsInv(ops, tails, nextOp) && op.stage == Queued && op.prev == PrevOf(tails, op.user)
  }

  lemma JoinedLater(ops: Ops, tails: map<UserId, OpId>, nextOp: OpId, op: Op)
    requires Joins(ops, tails, nextOp, op)
    ensures nextOp !in ops
    ensures forall a, b | Later(ops[nextOp := op], a, b) ::
              if b == nextOp then a in ops && ops[a].user == op.user else Later(ops, a, b)
    ensures forall a, b | Later(ops, a, b) :: Later(ops[nextOp := op], a, b)
  {
    var t := ops[nextOp := op];
    forall a, b | Later(t, a, b)
      ensures if b == nextOp then a in ops && ops[a].user == op.user else Later(ops, a, b)
    {
      assert a in ops || a == nextOp;
      assert b in ops || b == nextOp;
    }
  }

  lemma OpsEnqueue(ops: Ops, tails: map<UserId, OpId>, nextOp: OpId, op: Op)
    requires Joins(ops, tails, nextOp, op)
    ensures OpsInv(ops[nextOp := op], tails[op.user := nextOp], nextOp + 1)
  {
    hide Later, Ordered, Chained, EndsAtTails;
    OrderEnqueue(ops, tails, nextOp, op);
    ChainEnqueue(ops, tails, nextOp, op);
    TailsEnqueue(ops, tails, nextOp, op);
  }

  lemma OrderEnqueue(ops: Ops, tails: map<UserId, OpId>, nextOp: OpId, op: Op)
    requires Joins(ops, tails, nextOp, op)
    ensures Ordered(ops[nextOp := op])
  {
    hide Chained, EndsAtTails;
    JoinedLater(ops, tails, nextOp, op);
    var t := ops[nextOp := op];
    forall a, b | Later(t, a, b) && t[b].stage != Queued ensures Finished(t[a]) {
      assert b != nextOp && Later(ops, a, b);
    }
  }

  lemma TailsEnqueue(ops: Ops, tails: map<UserId, OpId>, nextOp: OpId, op: Op)
    requires Joins(ops, tails, nextOp, op)
    ensures EndsAtTails(ops[nextOp := op], tails[op.user := nextOp])
  {
    hide Later, Ordered, Chained;
  }

  lemma ChainEnqueue(ops: Ops, tails: map<UserId, OpId>, nextOp: OpId, op: Op)
    requires Joins(ops, tails, nextOp, op)
    ensures Chained(ops[nextOp := op])
  {
    hide Ordered;
    JoinedLater(ops, tails, nextOp, op);
    var t := ops[nextOp := op];
    forall b | b in t && t[b].prev.Some? ensures Later(t, t[b].prev.value, b) { PrevEnqueue(ops, tails, nextOp, op, b); }
    forall a, b | Later(t, a, b) && t[b].prev == None ensures Finished(t[a]) {
      if b == nextOp { assert ops[a].user !in tails; } else { assert Later(ops, a, b); }
    }
    forall a, b | Later(t, a, b) && t[b].prev.Some? ensures a <= t[b].prev.value {
      if b == nextOp { assert ops[a].user in tails; } else { assert Later(ops, a, b) && t[b] == ops[b]; }
    }
  }

  lemma PrevEnqueue(ops: Ops, tails: map<UserId, OpId>, nextOp: OpId, op: Op, b: OpId)
    requires Joins(ops, tails, nextOp, op)
    requires var t := ops[nextOp := op]; b in t && t[b].prev.Some?
    ensures var t := ops[nextOp := op]; Later(t, t[b].prev.value, b)
  {
    hide Ordered;
    if b != nextOp { assert Later(ops, ops[b].prev.value, b); }
  }

  lemma PredecessorsFinished(c: Calls, id: OpId)
    requires OpsInv(c.ops, c.tails, c.nextOp) && CanStart(c, id)
    ensures forall a | Later(c.ops, a, id) :: Finished(c.ops[a])
  {
    forall a | Later(c.ops, a, id) ensures Finished(c.ops[a]) {
      if c.ops[id].prev.Some? && a < c.ops[id].prev.value {
        assert Later(c.ops, a, c.ops[id].prev.value);
      }
    }
  }

  /** An op moves on: it keeps its place in the chain and never unfinishes. */
  ghost predicate Advances(ops: Ops, id: OpId, op: Op) {
    && id in ops && op.user == ops[id].user && op.kind == ops[id].kind && op.prev == ops[id].prev
    && op.stage != Queued
    && (Finished(ops[id]) ==> Finished(op))
    && (forall a | Later(ops, a, id) :: Finished(ops[a]))
  }

  lemma OpsAdvance(ops: Ops, tails: map<UserId, OpId>, nextOp: OpId, id: OpId, op: Op)
    requires OpsInv(ops, tails, nextOp) && Advances(ops, id, op)
    requires op.stage == Returned ==> op.user !in tails || tails[op.user] != id
    ensures OpsInv(ops[id := op], tails, nextOp)
  {
    var t := ops[id := op];
    forall a, b | Later(t, a, b) ensures Later(ops, a, b) {}
    forall b | b in t && t[b].prev.Some? ensures Later(t, t[b].prev.value, b) {
      assert Later(ops, ops[b].prev.value, b);
    }
  }

  /** The last call of the chain returns and takes the tail with it. */
  lemma OpsReturn(ops: Ops, tails: map<UserId, OpId>, nextOp: OpId, id: OpId, op: Op)
    requires OpsInv(ops, tails, nextOp) && Advances(ops, id, op) && Finished(op)
    requires op.user in tails && tails[op.user] == id
    ensures OpsInv(ops[id := op], tails - {op.user}, nextOp)
  {
    OpsAdvance(ops, tails, nextOp, id, op.(stage := Done));
    var t := ops[id := op];
    forall a, b | Later(t, a, b) ensures Later(ops, a, b) {}
    forall a | a in t && t[a].user == op.user ensures Finished(t[a]) {
      if a != id { assert Later(ops, a, id); }
    }
    forall b | b in t && t[b].prev.Some? ensures Later(t, t[b].prev.value, b) {
      assert Later(ops, ops[b].prev.value, b);
    }
  }

  // ---------------------------------------------------------------- lock depth

  /** The calls of `lock` and `cache` for `u` that have not returned. */
  ghost function Pending(ops: Ops, u: UserId): set<OpId> {
    set a | a in ops && ops[a].user == u && ops[a].stage != Returned
  }

  ghost predicate DepthInv(ops: Ops, depth: map<UserId, nat>) {
    && (forall u :: Get(depth, u) == |Pending(ops, u)|)
    && (forall u | u in depth :: depth[u] > 0)
  }

  lemma DepthEnqueue(ops: Ops, depth: map<UserId, nat>, id: OpId, op: Op)
    requires DepthInv(ops, depth) && id !in ops && op.stage == Queued
    ensures DepthInv(ops[id := op], depth[op.user := Get(depth, op.user) + 1])
  {
    var t := ops[id := op];
    assert Pending(t, op.user) == Pending(ops, op.user) + {id};
    forall u | u != op.user ensures Pending(t, u) == Pending(ops, u) {}
    DepthMove(ops, depth, t, depth[op.user := Get(depth, op.user) + 1], op.user);
  }

  lemma DepthMove(ops: Ops, depth: map<UserId, nat>, t: Ops, d: map<UserId, nat>, v: UserId)
    requires DepthInv(ops, depth) && Get(d, v) == |Pending(t, v)| && (v in d ==> d[v] > 0)
    requires forall u | u != v :: Pending(t, u) == Pending(ops, u) && (u in d <==> u in depth) && (u in d ==> d[u] == depth[u])
    ensures DepthInv(t, d)
  {
    forall u ensures Get(d, u) == |Pending(t, u)| {
      if u != v { assert Get(d, u) == Get(depth, u); }
    }
  }

  lemma DepthAdvance(ops: Ops, depth: map<UserId, nat>, id: OpId, op: Op)
    requires DepthInv(ops, depth) && id in ops && op.user == ops[id].user
    requires op.stage != Returned && ops[id].stage != Returned
    ensures DepthInv(ops[id := op], depth)
  {
    forall u ensures Pending(ops[id := op], u) == Pending(ops, u) {}
  }

  lemma DepthReturn(c: Calls, id: OpId)
    requires DepthInv(c.ops, c.depth) && id in c.ops && c.ops[id].stage == Done
    ensures DepthInv(OpReturn(c, id).ops, OpReturn(c, id).depth)
  {
    var d := OpReturn(c, id);
    var u := c.ops[id].user;
    assert id in Pending(c.ops, u);
    forall v ensures Get(d.depth, v) == |Pending(d.ops, v)| {
      if v == u {
        assert Pending(d.ops, u) == Pending(c.ops, u) - {id};
        assert Get(c.depth, u) == |Pending(c.ops, u)|;
      } else {
        assert Pending(d.ops, v) == Pending(c.ops, v);
        assert Get(d.depth, v) == Get(c.depth, v);
      }
    }
  }

  /** No pending call means no drain in progress. */
  lemma QuietUser(ops: Ops, depth: map<UserId, nat>, u: UserId)
    requires DepthInv(ops, depth) && Get(depth, u) == 0
    ensures forall a | a in ops && ops[a].user == u :: ops[a].stage == Returned
  {
    assert Pending(ops, u) == {};
    forall a | a in ops && ops[a].user == u ensures ops[a].stage == Returned {
      assert a !in Pending(ops, u);
    }
  }

  // ---------------------------------------------------------------- epochs

  ghost predicate EpochInv(ops: Ops, unlocks: map<int, Unlock>, nextUnlock: int, epochs: map<UserId, nat>) {
    && (forall a | a in ops :: ops[a].kind.epoch <= Get(epochs, ops[a].user))
    && (forall a, b | Later(ops, a, b) && ops[b].kind.Lock? :: ops[a].kind.epoch < ops[b].kind.epoch)
    && (forall a | a in ops && ops[a].kind.Cache? ::
          && ops[a].kind.unlock in unlocks
          && unlocks[ops[a].kind.unlock].user == ops[a].user && unlocks[ops[a].kind.unlock].epoch == ops[a].kind.epoch)
    && (forall n | n in unlocks :: n < nextUnlock && unlocks[n].epoch <= Get(epochs, unlocks[n].user))
  }

  lemma EpochLock(ops: Ops, tails: map<UserId, OpId>, nextOp: OpId, unlocks: map<int, Unlock>, nextUnlock: int,
                  epochs: map<UserId, nat>, op: Op)
    requires EpochInv(ops, unlocks, nextUnlock, epochs) && Joins(ops, tails, nextOp, op)
    requires op.kind.Lock? && op.kind.epoch == Get(epochs, op.user) + 1
    ensures EpochInv(ops[nextOp := op], unlocks, nextUnlock, epochs[op.user := op.kind.epoch])
  {
    JoinedLater(ops, tails, nextOp, op);
  }

  lemma EpochCache(ops: Ops, tails: map<UserId, OpId>, nextOp: OpId, unlocks: map<int, Unlock>, nextUnlock: int,
                   epochs: map<UserId, nat>, op: Op)
    requires EpochInv(ops, unlocks, nextUnlock, epochs) && Joins(ops, tails, nextOp, op)
    requires op.kind.Cache? && op.kind.unlock in unlocks
    requires unlocks[op.kind.unlock].user == op.user && unlocks[op.kind.unlock].epoch == op.kind.epoch
    ensures EpochInv(ops[nextOp := op], unlocks, nextUnlock, epochs)
  {
    JoinedLater(ops, tails, nextOp, op);
  }

  lemma EpochUnlocks(ops: Ops, unlocks: map<int, Unlock>, nextUnlock: int, epochs: map<UserId, nat>, n: int, cached: bool)
    requires EpochInv(ops, unlocks, nextUnlock, epochs) && n in unlocks
    ensures EpochInv(ops, unlocks[n := unlocks[n].(cached := cached)], nextUnlock, epochs)
  {
  }

  lemma EpochBegin(ops: Ops, unlocks: map<int, Unlock>, nextUnlock: int, epochs: map<UserId, nat>, u: UserId)
    requires EpochInv(ops, unlocks, nextUnlock, epochs)
    ensures EpochInv(ops, unlocks[nextUnlock := Unlock(u, Get(epochs, u), false)], nextUnlock + 1, epochs)
  {
  }

  lemma EpochAdvance(ops: Ops, unlocks: map<int, Unlock>, nextUnlock: int, epochs: map<UserId, nat>, id: OpId, op: Op)
    requires EpochInv(ops, unlocks, nextUnlock, epochs) && Advances(ops, id, op)
    ensures EpochInv(ops[id := op], unlocks, nextUnlock, epochs)
  {
    forall a, b | Later(ops[id := op], a, b) ensures Later(ops, a, b) {}
  }

  /** A cache whose section sees its own epoch has no later lock behind it. */
  lemma CurrentCacheHasNoLaterLock(ops: Ops, unlocks: map<int, Unlock>, nextUnlock: int, epochs: map<UserId, nat>, id: OpId)
    requires EpochInv(ops, unlocks, nextUnlock, epochs)
    requires id in ops && Get(epochs, ops[id].user) == ops[id].kind.epoch
    ensures forall b | Later(ops, id, b) :: ops[b].kind.Cache?
  {
  }

  // ---------------------------------------------------------------- generations

  ghost predicate QueuedLock(ops: Ops, a: OpId) {
    a in ops && ops[a].kind.Lock? && ops[a].stage == Queued
  }

  /** The generations drained for one user strictly increase. */
  ghost predicate Increasing(drains: seq<Drain>) {
    forall i, j | 0 <= i < j < |drains| && drains[i].user == drains[j].user :: drains[i].generation < drains[j].generation
  }

  /** `generation` is newer than everything drained for `u`. */
  ghost predicate Beyond(drains: seq<Drain>, u: UserId, generation: nat) {
    forall d | d in drains && d.user == u :: d.generation < generation
  }

  lemma AppendDrain(drains: seq<Drain>, d: Drain)
    requires Increasing(drains) && Beyond(drains, d.user, d.generation)
    ensures Increasing(drains + [d])
    ensures forall u, g: nat | Beyond(drains, u, g) && (u == d.user ==> d.generation < g) :: Beyond(drains + [d], u, g)
  {
  }

  lemma BeyondGrows(drains: seq<Drain>, u: UserId, g: nat, h: nat)
    requires Beyond(drains, u, g) && g <= h
    ensures Beyond(drains, u, h)
  {
  }

  /** Drained generations strictly increase, queued locks hold newer ones still, and a
      cache that nobody has superseded drains the current one. */
  ghost predicate GenInv(ops: Ops, epochs: map<UserId, nat>, generations: map<UserId, nat>, drains: seq<Drain>) {
    && Increasing(drains)
    && (forall u :: Beyond(drains, u, Get(generations, u) + 1))
    && (forall a | QueuedLock(ops, a) ::
          && ops[a].kind.generation <= Get(generations, ops[a].user)
          && Beyond(drains, ops[a].user, ops[a].kind.generation))
    && (forall a, b | Later(ops, a, b) && QueuedLock(ops, a) && QueuedLock(ops, b) ::
          ops[a].kind.generation < ops[b].kind.generation)
    && (forall a | CurrentDrain(ops, epochs, a) :: ops[a].generation == Get(generations, ops[a].user))
  }

  /** A cache that is draining and has not been superseded. */
  ghost predicate CurrentDrain(ops: Ops, epochs: map<UserId, nat>, a: OpId) {
    a in ops && ops[a].stage == Draining && ops[a].kind.Cache? && ops[a].kind.epoch == Get(epochs, ops[a].user)
  }

  lemma EpochsBound(ops: Ops, unlocks: map<int, Unlock>, nextUnlock: int, epochs: map<UserId, nat>)
    requires EpochInv(ops, unlocks, nextUnlock, epochs)
    ensures forall a | a in ops :: ops[a].kind.epoch <= Get(epochs, ops[a].user)
  {
  }

  lemma GenLock(ops: Ops, tails: map<UserId, OpId>, nextOp: OpId, unlocks: map<int, Unlock>, nextUnlock: int,
                epochs: map<UserId, nat>, generations: map<UserId, nat>, drains: seq<Drain>, op: Op)
    requires GenInv(ops, epochs, generations, drains) && Joins(ops, tails, nextOp, op)
    requires EpochInv(ops, unlocks, nextUnlock, epochs)
    requires op.kind == Lock(Get(epochs, op.user) + 1, Get(generations, op.user) + 1)
    ensures GenInv(ops[nextOp := op], epochs[op.user := op.kind.epoch], generations[op.user := op.kind.generation], drains)
  {
    hide Increasing, EpochInv, OpsInv;
    EpochsBound(ops, unlocks, nextUnlock, epochs);
    JoinedLater(ops, tails, nextOp, op);
    var (t, g) := (ops[nextOp := op], generations[op.user := op.kind.generation]);
    forall u ensures Beyond(drains, u, Get(g, u) + 1) {
      BeyondGrows(drains, u, Get(generations, u) + 1, Get(g, u) + 1);
    }
    forall a | QueuedLock(t, a) && a != nextOp ensures QueuedLock(ops, a) {}
    forall a, b | Later(t, a, b) && QueuedLock(t, a) && QueuedLock(t, b)
      ensures t[a].kind.generation < t[b].kind.generation
    {
      if b != nextOp { assert Later(ops, a, b); }
      assert QueuedLock(ops, a);
    }
    forall a | CurrentDrain(t, epochs[op.user := op.kind.epoch], a) ensures CurrentDrain(ops, epochs, a) && ops[a].user != op.user {}
  }

  lemma GenCache(ops: Ops, tails: map<UserId, OpId>, nextOp: OpId, epochs: map<UserId, nat>,
                 generations: map<UserId, nat>, drains: seq<Drain>, op: Op)
    requires GenInv(ops, epochs, generations, drains) && Joins(ops, tails, nextOp, op) && op.kind.Cache?
    ensures GenInv(ops[nextOp := op], epochs, generations, drains)
  {
    hide Increasing, Beyond, OpsInv;
    JoinedLater(ops, tails, nextOp, op);
    forall a | QueuedLock(ops[nextOp := op], a) ensures QueuedLock(ops, a) {}
  }

  /** Finishing or returning: no queued lock appears, no drain is logged. */
  lemma GenFinish(ops: Ops, epochs: map<UserId, nat>, generations: map<UserId, nat>, drains: seq<Drain>, id: OpId, op: Op)
    requires GenInv(ops, epochs, generations, drains) && Advances(ops, id, op) && Finished(op)
    ensures GenInv(ops[id := op], epochs, generations, drains)
  {
    forall a | QueuedLock(ops[id := op], a) ensures QueuedLock(ops, a) {}
    forall a, b | Later(ops[id := op], a, b) ensures Later(ops, a, b) {}
  }

  /** Everything else of this user has finished or is still queued. */
  lemma OnlyOneSection(ops: Ops, tails: map<UserId, OpId>, nextOp: OpId, id: OpId)
    requires OpsInv(ops, tails, nextOp) && id in ops && ops[id].stage != Returned
    requires forall a | Later(ops, a, id) :: Finished(ops[a])
    requires !Finished(ops[id])
    ensures forall a | a in ops && ops[a].user == ops[id].user && a != id ::
              if a < id then Finished(ops[a]) else ops[a].stage == Queued
  {
    forall a | a in ops && ops[a].user == ops[id].user && a != id
      ensures if a < id then Finished(ops[a]) else ops[a].stage == Queued
    {
      if a < id { assert Later(ops, a, id); } else { assert Later(ops, id, a); }
    }
  }

  /** A lock's section moves past every generation drained before it. */
  lemma GenDrainLock(ops: Ops, tails: map<UserId, OpId>, nextOp: OpId, epochs: map<UserId, nat>,
                     generations: map<UserId, nat>, drains: seq<Drain>, id: OpId, op: Op)
    requires GenInv(ops, epochs, generations, drains) && OpsInv(ops, tails, nextOp)
    requires QueuedLock(ops, id) && Advances(ops, id, op) && op.stage == Draining
    ensures GenInv(ops[id := op], epochs, generations, drains + [Drain(op.user, op.kind.generation, id)])
  {
    hide Increasing, OpsInv, Beyond;
    OnlyOneSection(ops, tails, nextOp, id);
    AppendDrain(drains, Drain(op.user, op.kind.generation, id));
    var t := ops[id := op];
    forall a | QueuedLock(t, a) && ops[a].user == op.user ensures op.kind.generation < ops[a].kind.generation {
      assert QueuedLock(ops, a) && Later(ops, id, a);
    }
    forall a | QueuedLock(t, a) ensures QueuedLock(ops, a) {}
    forall a, b | Later(t, a, b) ensures Later(ops, a, b) {}
    forall a | CurrentDrain(t, epochs, a) ensures CurrentDrain(ops, epochs, a) {}
  }

  /** So does a cache's section that is not superseded: it takes the next generation. */
  lemma GenDrainCache(ops: Ops, tails: map<UserId, OpId>, nextOp: OpId, epochs: map<UserId, nat>,
                      generations: map<UserId, nat>, drains: seq<Drain>, id: OpId, op: Op)
    requires GenInv(ops, epochs, generations, drains) && OpsInv(ops, tails, nextOp)
    requires id in ops && ops[id].stage == Queued && op.kind.Cache? && Advances(ops, id, op) && op.stage == Draining
    requires forall b | Later(ops, id, b) :: ops[b].kind.Cache?
    requires op.generation == Get(generations, op.user) + 1
    ensures GenInv(ops[id := op], epochs, generations[op.user := op.generation], drains + [Drain(op.user, op.generation, id)])
  {
    hide Increasing, OpsInv, Beyond;
    OnlyOneSection(ops, tails, nextOp, id);
    var d := Drain(op.user, op.generation, id);
    AppendDrain(drains, d);
    var (t, g) := (ops[id := op], generations[op.user := op.generation]);
    forall u ensures Beyond(drains + [d], u, Get(g, u) + 1) {
      BeyondGrows(drains, u, Get(generations, u) + 1, Get(g, u) + 1);
    }
    forall a | QueuedLock(t, a) ensures QueuedLock(ops, a) && ops[a].user != op.user {
      assert ops[a].user == op.user ==> Later(ops, id, a);
    }
    forall a, b | Later(t, a, b) ensures Later(ops, a, b) {}
    forall a | CurrentDrain(t, epochs, a) && a != id ensures CurrentDrain(ops, epochs, a) && ops[a].user != op.user {}
  }

  // ---------------------------------------------------------------- keys

  /** A lock section for `u` is still to come or to end. */
  ghost predicate LockAhead(ops: Ops, u: UserId) {
    exists a :: a in ops && ops[a].user == u && ops[a].kind.Lock? && !Finished(ops[a])
  }

  /** A key of the current epoch has the current generation; one of an older epoch has a lock ahead. */
  ghost predicate GoodKey(ops: Ops, unlocks: map<int, Unlock>, epoch: nat, generation: nat, u: UserId, key: InstalledKey) {
    && key.unlock in unlocks && unlocks[key.unlock].user == u && unlocks[key.unlock].epoch == key.epoch
    && key.epoch <= epoch
    && (key.epoch == epoch ==> key.generation == generation)
    && (key.epoch < epoch ==> LockAhead(ops, u))
  }

  ghost predicate DrainingCache(ops: Ops, a: OpId) {
    a in ops && ops[a].kind.Cache? && ops[a].stage == Draining
  }

  ghost predicate KeyInv(ops: Ops, unlocks: map<int, Unlock>, epochs: map<UserId, nat>, generations: map<UserId, nat>,
                         unlocked: map<UserId, InstalledKey>, contained: set<UserId>)
  {
    && (forall u | u in unlocked ::
          u !in contained && GoodKey(ops, unlocks, Get(epochs, u), Get(generations, u), u, unlocked[u]))
    && (forall a | DrainingCache(ops, a) :: ops[a].user !in unlocked)
  }

  lemma LockAheadKept(ops: Ops, id: OpId, op: Op, u: UserId)
    requires LockAhead(ops, u)
    requires id in ops ==> op.user == ops[id].user && op.kind == ops[id].kind
    requires id in ops && ops[id].user == u && ops[id].kind.Lock? && Finished(op) ==> Finished(ops[id])
    ensures LockAhead(ops[id := op], u)
  {
    var t := ops[id := op];
    var a :| a in ops && ops[a].user == u && ops[a].kind.Lock? && !Finished(ops[a]);
    assert a in t && t[a].user == u && t[a].kind.Lock? && !Finished(t[a]);
  }

  lemma KeyLock(ops: Ops, nextOp: OpId, unlocks: map<int, Unlock>, epochs: map<UserId, nat>, generations: map<UserId, nat>,
                unlocked: map<UserId, InstalledKey>, contained: set<UserId>, op: Op)
    requires KeyInv(ops, unlocks, epochs, generations, unlocked, contained) && nextOp !in ops
    requires op.kind == Lock(Get(epochs, op.user) + 1, Get(generations, op.user) + 1) && op.stage == Queued
    ensures KeyInv(ops[nextOp := op], unlocks, epochs[op.user := op.kind.epoch], generations[op.user := op.kind.generation],
                   unlocked, contained)
  {
    var t := ops[nextOp := op];
    assert nextOp in t && t[nextOp].kind.Lock?;
    forall u | u in unlocked
      ensures GoodKey(t, unlocks, Get(epochs[op.user := op.kind.epoch], u), Get(generations[op.user := op.kind.generation], u), u, unlocked[u])
    {
      if LockAhead(ops, u) { LockAheadKept(ops, nextOp, op, u); }
    }
  }

  /** An op that is not a lock ending: it joins, moves on, or a cache ends without a key. */
  lemma KeyAdvance(ops: Ops, id: OpId, op: Op, unlocks: map<int, Unlock>, epochs: map<UserId, nat>,
                   generations: map<UserId, nat>, unlocked: map<UserId, InstalledKey>, contained: set<UserId>)
    requires KeyInv(ops, unlocks, epochs, generations, unlocked, contained)
    requires id in ops ==> op.user == ops[id].user && op.kind == ops[id].kind
    requires id in ops && ops[id].kind.Lock? && Finished(op) ==> Finished(ops[id]) || op.user !in unlocked
    requires op.kind.Cache? && op.stage == Draining ==> op.user !in unlocked
    ensures KeyInv(ops[id := op], unlocks, epochs, generations, unlocked, contained)
  {
    var t := ops[id := op];
    forall u | u in unlocked ensures GoodKey(t, unlocks, Get(epochs, u), Get(generations, u), u, unlocked[u]) {
      if LockAhead(ops, u) { LockAheadKept(ops, id, op, u); }
    }
    forall a | DrainingCache(t, a) && a != id ensures DrainingCache(ops, a) {}
  }

  /** Without its key a user's generation, containment and unlocks may change freely. */
  lemma KeyDrop(ops: Ops, unlocks: map<int, Unlock>, epochs: map<UserId, nat>, generations: map<UserId, nat>,
                unlocked: map<UserId, InstalledKey>, contained: set<UserId>, u: UserId, g: nat, failed: bool)
    requires KeyInv(ops, unlocks, epochs, generations, unlocked, contained)
    ensures KeyInv(ops, unlocks, epochs, generations[u := g], unlocked - {u},
                   if failed then contained + {u} else contained - {u})
    ensures KeyInv(ops, unlocks, epochs, generations, unlocked - {u},
                   if failed then contained + {u} else contained - {u})
    ensures KeyInv(ops, unlocks, epochs, generations[u := g], unlocked - {u}, contained)
  {
  }

  lemma KeyUnlocks(ops: Ops, unlocks: map<int, Unlock>, more: map<int, Unlock>, epochs: map<UserId, nat>,
                   generations: map<UserId, nat>, unlocked: map<UserId, InstalledKey>, contained: set<UserId>)
    requires KeyInv(ops, unlocks, epochs, generations, unlocked, contained)
    requires forall n | n in unlocks :: n in more && more[n].user == unlocks[n].user && more[n].epoch == unlocks[n].epoch
    ensures KeyInv(ops, more, epochs, generations, unlocked, contained)
  {
  }

  /** An installed key is good: the cache was not superseded, so it drained the current generation. */
  lemma KeyInstall(ops: Ops, unlocks: map<int, Unlock>, epochs: map<UserId, nat>, generations: map<UserId, nat>,
                   unlocked: map<UserId, InstalledKey>, contained: set<UserId>, u: UserId, key: InstalledKey)
    requires KeyInv(ops, unlocks, epochs, generations, unlocked, contained)
    requires u !in contained && GoodKey(ops, unlocks, Get(epochs, u), Get(generations, u), u, key)
    requires forall a | DrainingCache(ops, a) :: ops[a].user != u
    ensures KeyInv(ops, unlocks, epochs, generations, unlocked[u := key], contained)
  {
  }

  // ---------------------------------------------------------------- all of it

  ghost predicate CallInv(c: Calls) {
    && OpsInv(c.ops, c.tails, c.nextOp)
    && DepthInv(c.ops, c.depth)
    && EpochInv(c.ops, c.unlocks, c.nextUnlock, c.epochs)
    && GenInv(c.ops, c.epochs, c.generations, c.drains)
    && KeyInv(c.ops, c.unlocks, c.epochs, c.generations, c.unlocked, c.contained)
  }

  lemma InitCalls()
    ensures CallInv(Empty.calls)
  {
    hide OpsInv, DepthInv, EpochInv, GenInv, KeyInv;
    InitOps();
    InitDepth();
    InitGenerations();
  }

  lemma InitOps()
    ensures OpsInv(map[], map[], 0) && EpochInv(map[], map[], 0, map[])
  {
  }

  lemma InitDepth()
    ensures DepthInv(map[], map[])
  {
    assert forall u :: Pending(map[], u) == {};
  }

  lemma InitGenerations()
    ensures GenInv(map[], map[], map[], []) && KeyInv(map[], map[], map[], map[], map[], {})
  {
  }

  lemma NewOp(c: Calls)
    requires CallInv(c)
    ensures c.nextOp !in c.ops
  {
  }

  lemma NewUnlock(c: Calls)
    requires CallInv(c)
    ensures c.nextUnlock !in c.unlocks
  {
  }

  lemma NoKeyWhileCaching(c: Calls, id: OpId)
    requires CallInv(c) && DrainingCache(c.ops, id)
    ensures c.ops[id].user !in c.unlocked && c.unlocked - {c.ops[id].user} == c.unlocked
  {
  }

  /** A cache that has not been superseded drained, and will publish, the current generation. */
  lemma InstallsCurrentGeneration(c: Calls, id: OpId)
    requires CallInv(c) && CurrentDrain(c.ops, c.epochs, id)
    ensures c.ops[id].generation == Get(c.generations, c.ops[id].user)
    ensures forall expiresAt: int ::
              GoodKey(c.ops, c.unlocks, Get(c.epochs, c.ops[id].user), Get(c.generations, c.ops[id].user), c.ops[id].user,
                      InstalledKey(c.ops[id].kind.unlock, c.ops[id].kind.epoch, c.ops[id].generation, expiresAt))
  {
  }

  lemma PredecessorsOfSection(c: Calls, id: OpId)
    requires CallInv(c) && id in c.ops && c.ops[id].stage != Queued
    ensures forall a | Later(c.ops, a, id) :: Finished(c.ops[a])
  {
  }

  lemma LockKeeps(c: Calls, u: UserId)
    requires CallInv(c)
    ensures CallInv(LockCall(c, u))
  {
    hide OpsInv, DepthInv, EpochInv, GenInv, KeyInv;
    var op := Op(u, Lock(Get(c.epochs, u) + 1, Get(c.generations, u) + 1), PrevOf(c.tails, u), Queued,
                 Get(c.generations, u) + 1, 0, true);
    NewOp(c);
    OpsEnqueue(c.ops, c.tails, c.nextOp, op);
    DepthEnqueue(c.ops, c.depth, c.nextOp, op);
    EpochLock(c.ops, c.tails, c.nextOp, c.unlocks, c.nextUnlock, c.epochs, op);
    GenLock(c.ops, c.tails, c.nextOp, c.unlocks, c.nextUnlock, c.epochs, c.generations, c.drains, op);
    KeyLock(c.ops, c.nextOp, c.unlocks, c.epochs, c.generations, c.unlocked, c.contained, op);
  }

  lemma BeginUnlockKeeps(c: Calls, u: UserId)
    requires CallInv(c)
    ensures CallInv(BeginUnlock(c, u))
  {
    hide OpsInv, DepthInv, EpochInv, GenInv, KeyInv;
    NewUnlock(c);
    EpochBegin(c.ops, c.unlocks, c.nextUnlock, c.epochs, u);
    KeyUnlocks(c.ops, c.unlocks, BeginUnlock(c, u).unlocks, c.epochs, c.generations, c.unlocked, c.contained);
  }

  lemma CacheKeeps(c: Calls, n: int)
    requires CallInv(c) && CanCache(c, n)
    ensures CallInv(CacheCall(c, n))
  {
    hide OpsInv, DepthInv, EpochInv, GenInv, KeyInv;
    var unlock := c.unlocks[n];
    var unlocks := c.unlocks[n := unlock.(cached := true)];
    EpochUnlocks(c.ops, c.unlocks, c.nextUnlock, c.epochs, n, true);
    KeyUnlocks(c.ops, c.unlocks, unlocks, c.epochs, c.generations, c.unlocked, c.contained);
    if Get(c.epochs, unlock.user) == unlock.epoch {
      var op := Op(unlock.user, Cache(n, unlock.epoch), PrevOf(c.tails, unlock.user), Queued, 0, 0, false);
      NewOp(c);
      OpsEnqueue(c.ops, c.tails, c.nextOp, op);
      DepthEnqueue(c.ops, c.depth, c.nextOp, op);
      EpochCache(c.ops, c.tails, c.nextOp, unlocks, c.nextUnlock, c.epochs, op);
      GenCache(c.ops, c.tails, c.nextOp, c.epochs, c.generations, c.drains, op);
      KeyAdvance(c.ops, c.nextOp, op, unlocks, c.epochs, c.generations, c.unlocked, c.contained);
    }
  }

  lemma DrainLockKeeps(c: Calls, id: OpId, horizon: BindingId)
    requires CallInv(c) && CanStart(c, id) && c.ops[id].kind.Lock?
    ensures CallInv(LogDrain(c, id, c.ops[id].kind.generation, horizon))
  {
    hide OpsInv, DepthInv, EpochInv, GenInv, KeyInv;
    var op := c.ops[id].(stage := Draining, generation := c.ops[id].kind.generation, horizon := horizon);
    PredecessorsFinished(c, id);
    OpsAdvance(c.ops, c.tails, c.nextOp, id, op);
    DepthAdvance(c.ops, c.depth, id, op);
    EpochAdvance(c.ops, c.unlocks, c.nextUnlock, c.epochs, id, op);
    GenDrainLock(c.ops, c.tails, c.nextOp, c.epochs, c.generations, c.drains, id, op);
    KeyAdvance(c.ops, id, op, c.unlocks, c.epochs, c.generations, c.unlocked, c.contained);
  }

  lemma DrainCacheKeeps(c: Calls, id: OpId, horizon: BindingId)
    requires CallInv(c) && CanStart(c, id) && c.ops[id].kind.Cache? && !Outdated(c, id)
    ensures CallInv(LogDrain(TakeGeneration(c, c.ops[id].user), id, Get(c.generations, c.ops[id].user) + 1, horizon))
  {
    hide OpsInv, DepthInv, EpochInv, GenInv, KeyInv;
    var u := c.ops[id].user;
    var generation := Get(c.generations, u) + 1;
    var op := c.ops[id].(stage := Draining, generation := generation, horizon := horizon);
    PredecessorsFinished(c, id);
    CurrentCacheHasNoLaterLock(c.ops, c.unlocks, c.nextUnlock, c.epochs, id);
    OpsAdvance(c.ops, c.tails, c.nextOp, id, op);
    DepthAdvance(c.ops, c.depth, id, op);
    EpochAdvance(c.ops, c.unlocks, c.nextUnlock, c.epochs, id, op);
    GenDrainCache(c.ops, c.tails, c.nextOp, c.epochs, c.generations, c.drains, id, op);
    KeyDrop(c.ops, c.unlocks, c.epochs, c.generations, c.unlocked, c.contained, u, generation, false);
    KeyAdvance(c.ops, id, op, c.unlocks, c.epochs, c.generations[u := generation], c.unlocked - {u}, c.contained);
  }

  lemma FinishKeeps(c: Calls, id: OpId, op: Op)
    requires CallInv(c) && id in c.ops && op == c.ops[id].(stage := Done, outcome := op.outcome)
    requires c.ops[id].stage != Returned && forall a | Later(c.ops, a, id) :: Finished(c.ops[a])
    ensures OpsInv(c.ops[id := op], c.tails, c.nextOp) && DepthInv(c.ops[id := op], c.depth)
    ensures EpochInv(c.ops[id := op], c.unlocks, c.nextUnlock, c.epochs)
    ensures GenInv(c.ops[id := op], c.epochs, c.generations, c.drains)
  {
    hide OpsInv, DepthInv, EpochInv, GenInv, KeyInv;
    OpsAdvance(c.ops, c.tails, c.nextOp, id, op);
    DepthAdvance(c.ops, c.depth, id, op);
    EpochAdvance(c.ops, c.unlocks, c.nextUnlock, c.epochs, id, op);
    GenFinish(c.ops, c.epochs, c.generations, c.drains, id, op);
  }

  lemma SkipKeeps(c: Calls, id: OpId)
    requires CallInv(c) && CanStart(c, id) && Outdated(c, id)
    ensures CallInv(c.(ops := c.ops[id := c.ops[id].(stage := Done)]))
  {
    hide OpsInv, DepthInv, EpochInv, GenInv, KeyInv;
    var op := c.ops[id].(stage := Done);
    PredecessorsFinished(c, id);
    FinishKeeps(c, id, op);
    KeyAdvance(c.ops, id, op, c.unlocks, c.epochs, c.generations, c.unlocked, c.contained);
  }

  lemma EndLockKeeps(c: Calls, id: OpId, complete: bool, expiresAt: int, to: set<BindingId>)
    requires CallInv(c) && id in c.ops && c.ops[id].stage == Draining && c.ops[id].kind.Lock?
    ensures CallInv(SectionEnd(c, id, complete, expiresAt, to))
  {
    hide OpsInv, DepthInv, EpochInv, GenInv, KeyInv;
    var op := c.ops[id].(stage := Done, outcome := complete);
    var d := SectionEnd(c, id, complete, expiresAt, to);
    PredecessorsOfSection(c, id);
    FinishKeeps(c, id, op);
    KeyDrop(c.ops, c.unlocks, c.epochs, c.generations, c.unlocked, c.contained, op.user, 0, !complete);
    KeyAdvance(c.ops, id, op, c.unlocks, c.epochs, c.generations, d.unlocked, d.contained);
  }

  /** The drain failed, or a later `lock` has superseded this unlock: no key. */
  lemma EndCacheWithoutKey(c: Calls, id: OpId, complete: bool, expiresAt: int, to: set<BindingId>)
    requires CallInv(c) && id in c.ops && c.ops[id].stage == Draining && c.ops[id].kind.Cache?
    requires !complete || Outdated(c, id)
    ensures CallInv(SectionEnd(c, id, complete, expiresAt, to))
  {
    hide OpsInv, DepthInv, EpochInv, GenInv, KeyInv;
    var op := c.ops[id].(stage := Done, outcome := false);
    PredecessorsOfSection(c, id);
    FinishKeeps(c, id, op);
    NoKeyWhileCaching(c, id);
    KeyDrop(c.ops, c.unlocks, c.epochs, c.generations, c.unlocked, c.contained, op.user, 0, !complete);
    KeyAdvance(c.ops, id, op, c.unlocks, c.epochs, c.generations, c.unlocked, Contain(c.contained, op.user, complete));
  }

  lemma EndCacheWithKey(c: Calls, id: OpId, expiresAt: int, to: set<BindingId>)
    requires CallInv(c) && id in c.ops && c.ops[id].stage == Draining && c.ops[id].kind.Cache? && !Outdated(c, id)
    ensures CallInv(SectionEnd(c, id, true, expiresAt, to))
  {
    hide OpsInv, DepthInv, EpochInv, GenInv, KeyInv;
    var op := c.ops[id].(stage := Done, outcome := true);
    var d := SectionEnd(c, id, true, expiresAt, to);
    PredecessorsOfSection(c, id);
    FinishKeeps(c, id, op);
    NoKeyWhileCaching(c, id);
    KeyDrop(c.ops, c.unlocks, c.epochs, c.generations, c.unlocked, c.contained, op.user, 0, false);
    KeyAdvance(c.ops, id, op, c.unlocks, c.epochs, c.generations, c.unlocked, d.contained);
    InstallsCurrentGeneration(c, id);
    OnlyOneSection(c.ops, c.tails, c.nextOp, id);
    forall a | DrainingCache(d.ops, a) ensures d.ops[a].user != op.user { assert DrainingCache(c.ops, a) && a != id; }
    GoodKeyAdvance(c.ops, id, op, c.unlocks, Get(c.epochs, op.user), Get(c.generations, op.user), op.user, d.unlocked[op.user]);
    KeyInstall(d.ops, c.unlocks, c.epochs, c.generations, c.unlocked, d.contained, op.user, d.unlocked[op.user]);
  }

  lemma GoodKeyAdvance(ops: Ops, id: OpId, op: Op, unlocks: map<int, Unlock>, epoch: nat, generation: nat, u: UserId, key: InstalledKey)
    requires GoodKey(ops, unlocks, epoch, generation, u, key) && key.epoch == epoch
    ensures GoodKey(ops[id := op], unlocks, epoch, generation, u, key)
  {
  }

  lemma EndKeeps(c: Calls, id: OpId, complete: bool, expiresAt: int, to: set<BindingId>)
    requires CallInv(c) && id in c.ops && c.ops[id].stage == Draining
    ensures CallInv(SectionEnd(c, id, complete, expiresAt, to))
  {
    hide CallInv;
    if c.ops[id].kind.Lock? { EndLockKeeps(c, id, complete, expiresAt, to); }
    else if !complete || Outdated(c, id) { EndCacheWithoutKey(c, id, complete, expiresAt, to); }
    else { EndCacheWithKey(c, id, expiresAt, to); }
  }

  lemma ReturnKeeps(c: Calls, id: OpId)
    requires CallInv(c) && id in c.ops && c.ops[id].stage == Done
    ensures CallInv(OpReturn(c, id))
  {
    hide OpsInv, DepthInv, EpochInv, GenInv, KeyInv;
    var op := c.ops[id].(stage := Returned);
    var d := OpReturn(c, id);
    PredecessorsOfSection(c, id);
    if op.user in c.tails && c.tails[op.user] == id { OpsReturn(c.ops, c.tails, c.nextOp, id, op); }
    else { OpsAdvance(c.ops, c.tails, c.nextOp, id, op); }
    DepthReturn(c, id);
    EpochAdvance(c.ops, c.unlocks, c.nextUnlock, c.epochs, id, op);
    GenFinish(c.ops, c.epochs, c.generations, c.drains, id, op);
    KeyAdvance(c.ops, id, op, c.unlocks, c.epochs, c.generations, c.unlocked, c.contained);
  }
}
