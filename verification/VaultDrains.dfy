/** What every step keeps about bindings, their pending acknowledgements and the drains. */
module VaultDrains {
  import opened Identifiers
  import opened SessionAuthority
  import opened VaultBarrier
  import opened VaultCalls

  // ---------------------------------------------------------------- bindings

  /** A binding leaves the registry only if its child has exited or never got its capability;
      outside the registry it has no authority and no pending acknowledgement. */
  ghost predicate GoodBinding(b: BindingId, binding: Binding, children: Children, exited: set<Child>) {
    && AuthorityInv(binding.authority)
    && (binding.capabilitySent ==> binding.attachment != Loading)
    && (Registered(children, b, binding) || binding.child in exited || !binding.capabilitySent)
    && (!Registered(children, b, binding) ==> binding.authority.closed && binding.lockAcks == map[])
  }

  ghost predicate BindInv(bindings: Bindings, children: Children, exited: set<Child>, nextBinding: BindingId) {
    && (forall b | b in bindings :: b < nextBinding && GoodBinding(b, bindings[b], children, exited))
    && (forall c | c in children :: children[c] in bindings && bindings[children[c]].child == c)
  }

  lemma BindUpdate(bindings: Bindings, children: Children, exited: set<Child>, nextBinding: BindingId, b: BindingId, x: Binding)
    requires BindInv(bindings, children, exited, nextBinding) && b in bindings
    requires x.child == bindings[b].child && GoodBinding(b, x, children, exited)
    ensures BindInv(bindings[b := x], children, exited, nextBinding)
  {
  }

  lemma BindRelease(k: Kids, b: BindingId)
    requires BindInv(k.bindings, k.children, k.exited, k.nextBinding) && b in k.bindings
    requires k.bindings[b].child in k.exited || !k.bindings[b].capabilitySent
    ensures var r := Release(k, b);
            && BindInv(r.bindings, r.children, r.exited, r.nextBinding)
            && b in r.bindings && !Registered(r.children, b, r.bindings[b])
            && r.bindings[b] == k.bindings[b].(authority := r.bindings[b].authority, lockAcks := r.bindings[b].lockAcks)
  {
    hide GoodBinding, Close;
    var r := Release(k, b);
    if Registered(k.children, b, k.bindings[b]) {
      forall c | c in r.bindings ensures GoodBinding(c, r.bindings[c], r.children, k.exited) {
        if c == b { ReleasedIsGood(k, b); } else { StillGood(k, b, c); }
      }
    }
  }

  /** The released binding itself has no authority left. */
  lemma ReleasedIsGood(k: Kids, b: BindingId)
    requires b in k.bindings && GoodBinding(b, k.bindings[b], k.children, k.exited)
    requires k.bindings[b].child in k.exited || !k.bindings[b].capabilitySent
    ensures var x := k.bindings[b]; GoodBinding(b, x.(authority := Close(x.authority), lockAcks := map[]), k.children - {x.child}, k.exited)
  {
    hide AuthorityInv, Close;
    CloseKeeps(k.bindings[b].authority);
  }

  /** Every other binding is as registered as it was. */
  lemma StillGood(k: Kids, b: BindingId, c: BindingId)
    requires c in k.bindings && c != b && b in k.bindings && GoodBinding(c, k.bindings[c], k.children, k.exited)
    requires Registered(k.children, b, k.bindings[b])
    ensures GoodBinding(c, k.bindings[c], k.children - {k.bindings[b].child}, k.exited)
  {
    hide AuthorityInv;
  }

  /** The drain records its lock id at every binding it reached. */
  lemma BindDrain(k: Kids, id: OpId, u: UserId, generation: nat, reached: set<BindingId>)
    requires BindInv(k.bindings, k.children, k.exited, k.nextBinding)
    ensures var r := SendLocks(k, id, u, generation, reached);
            BindInv(r.bindings, r.children, r.exited, r.nextBinding)
  {
    var r := SendLocks(k, id, u, generation, reached);
    forall b | b in r.bindings ensures b < k.nextBinding && GoodBinding(b, r.bindings[b], k.children, k.exited) {
      assert GoodBinding(b, k.bindings[b], k.children, k.exited);
    }
  }

  lemma BindAdd(bindings: Bindings, children: Children, exited: set<Child>, nextBinding: BindingId, x: Binding)
    requires BindInv(bindings, children, exited, nextBinding) && x.child !in children
    requires AuthorityInv(x.authority) && !x.capabilitySent
    ensures BindInv(bindings[nextBinding := x], children[x.child := nextBinding], exited, nextBinding + 1)
  {
    hide GoodBinding, AuthorityInv;
    var (all, more) := (bindings[nextBinding := x], children[x.child := nextBinding]);
    forall b | b in all ensures b < nextBinding + 1 && GoodBinding(b, all[b], more, exited) {
      if b == nextBinding { NewIsGood(more, exited, b, x); } else { GoodWithMore(b, bindings[b], children, exited, x.child, nextBinding); }
    }
  }

  lemma NewIsGood(children: Children, exited: set<Child>, b: BindingId, x: Binding)
    requires AuthorityInv(x.authority) && !x.capabilitySent && Registered(children, b, x)
    ensures GoodBinding(b, x, children, exited)
  {
    hide AuthorityInv;
  }

  lemma GoodWithMore(b: BindingId, x: Binding, children: Children, exited: set<Child>, child: Child, c: BindingId)
    requires GoodBinding(b, x, children, exited) && child !in children && b != c
    ensures GoodBinding(b, x, children[child := c], exited)
  {
    hide AuthorityInv;
  }

  lemma FreshAuthority(role: Role, verifier: bool, users: set<UserId>)
    ensures AuthorityInv(Authority(role, role == Api && verifier, users, users, map[], map[], map[], false))
  {
    assert Owners(map[]) == {};
  }

  lemma BindAttach(k: Kids, child: Child, role: Role, users: set<UserId>, verifier: bool, connected: bool)
    requires BindInv(k.bindings, k.children, k.exited, k.nextBinding)
    ensures var r := Attach(k, child, role, users, verifier, connected);
            BindInv(r.bindings, r.children, r.exited, r.nextBinding)
  {
    hide BindInv, AuthorityInv;
    var r := Attach(k, child, role, users, verifier, connected);
    if child !in k.children && connected && child !in k.exited {
      FreshAuthority(role, verifier, users);
      BindAdd(k.bindings, k.children, k.exited, k.nextBinding, r.bindings[k.nextBinding]);
    }
  }

  // ---------------------------------------------------------------- waits

  ghost predicate GoodWait(ops: Ops, bindings: Bindings, children: Children, acks: set<Ack>, id: OpId, b: BindingId, w: Wait) {
    && id in ops && b in bindings
    && (w == Acked ==> Ack(b, (id, b), ops[id].user, ops[id].generation) in acks)
    && (w == Released ==> !Registered(children, b, bindings[b]))
    && (w == AwaitAck ==> (id, b) in bindings[b].lockAcks)
  }

  ghost predicate GoodPending(ops: Ops, waits: Waits, b: BindingId, l: LockId, p: PendingAck) {
    && l.1 == b && l.0 in ops && l.0 in waits && b in waits[l.0] && waits[l.0][b] == AwaitAck
    && p == PendingAck(ops[l.0].user, ops[l.0].generation)
  }

  /** Waits and pending acknowledgements correspond; an acknowledged wait has its exact
      acknowledgement on record and a released one is out of the registry. */
  ghost predicate WaitInv(ops: Ops, waits: Waits, bindings: Bindings, children: Children, acks: set<Ack>) {
    && (forall id | id in waits :: id in ops && ops[id].stage != Queued)
    && (forall id | id in ops && ops[id].stage == Draining :: id in waits)
    && (forall id, b | id in waits && b in waits[id] :: GoodWait(ops, bindings, children, acks, id, b, waits[id][b]))
    && (forall b, l | b in bindings && l in bindings[b].lockAcks :: GoodPending(ops, waits, b, l, bindings[b].lockAcks[l]))
  }

  /** Ops may move on and join as long as drained ones keep their user and generation. */
  lemma WaitOps(ops: Ops, more: Ops, waits: Waits, bindings: Bindings, children: Children, acks: set<Ack>)
    requires WaitInv(ops, waits, bindings, children, acks)
    requires forall id | id in waits :: id in more && more[id].stage != Queued
               && more[id].user == ops[id].user && more[id].generation == ops[id].generation
    requires forall id | id in more && more[id].stage == Draining :: id in waits
    ensures WaitInv(more, waits, bindings, children, acks)
  {
  }

  /** Bindings may change as long as their pending acknowledgements stay; the registry may grow by new ones. */
  lemma WaitBindings(ops: Ops, waits: Waits, bindings: Bindings, children: Children, acks: set<Ack>,
                     bindings': Bindings, children': Children)
    requires WaitInv(ops, waits, bindings, children, acks)
    requires forall b | b in bindings :: b in bindings' && bindings'[b].lockAcks == bindings[b].lockAcks
               && (Registered(children', b, bindings'[b]) ==> Registered(children, b, bindings[b]))
    requires forall b | b in bindings' && b !in bindings :: bindings'[b].lockAcks == map[]
    ensures WaitInv(ops, waits, bindings', children', acks)
  {
  }

  /** One wait is settled or escalated, and its acknowledgement withdrawn. */
  lemma WaitSet(ops: Ops, k: Kids, id: OpId, b: BindingId, w: Wait, acks: set<Ack>)
    requires WaitInv(ops, k.waits, k.bindings, k.children, k.acks) && k.acks <= acks
    requires id in k.waits && b in k.waits[id] && w != AwaitAck
    requires id in ops && w == Acked ==> Ack(b, (id, b), ops[id].user, ops[id].generation) in acks
    requires w == Released ==> b in k.bindings && !Registered(k.children, b, k.bindings[b])
    ensures b in k.bindings
    ensures var r := SetWait(k, id, b, w); WaitInv(ops, r.waits, r.bindings, r.children, acks)
  {
    assert GoodWait(ops, k.bindings, k.children, k.acks, id, b, k.waits[id][b]);
    var r := SetWait(k, id, b, w);
    forall i, c | i in r.waits && c in r.waits[i]
      ensures GoodWait(ops, r.bindings, r.children, acks, i, c, r.waits[i][c])
    {
      assert i in k.waits;
      assert c in k.waits[i];
      assert GoodWait(ops, k.bindings, k.children, k.acks, i, c, k.waits[i][c]);
    }
    forall c, l | c in r.bindings && l in r.bindings[c].lockAcks
      ensures GoodPending(ops, r.waits, c, l, r.bindings[c].lockAcks[l])
    {
      assert l in k.bindings[c].lockAcks;
      assert GoodPending(ops, k.waits, c, l, k.bindings[c].lockAcks[l]);
    }
  }

  lemma WaitRelease(ops: Ops, k: Kids, b: BindingId)
    requires WaitInv(ops, k.waits, k.bindings, k.children, k.acks) && b in k.bindings
    ensures var r := Release(k, b);
            && WaitInv(ops, r.waits, r.bindings, r.children, r.acks)
            && r.waits.Keys == k.waits.Keys
            && forall id | id in k.waits :: r.waits[id].Keys == k.waits[id].Keys
  {
    hide GoodWait, GoodPending, Release, Registered;
    var r := Release(k, b);
    ReleaseShape(k, b);
    if Registered(k.children, b, k.bindings[b]) {
      forall id | id in k.waits ensures r.waits[id].Keys == k.waits[id].Keys { ReleasedKeys(ops, k, b, id); }
      forall id, c | id in r.waits && c in r.waits[id]
        ensures GoodWait(ops, r.bindings, r.children, r.acks, id, c, r.waits[id][c])
      {
        ReleasedWait(ops, k, b, id, c);
      }
      forall c, l | c in r.bindings && l in r.bindings[c].lockAcks
        ensures GoodPending(ops, r.waits, c, l, r.bindings[c].lockAcks[l])
      {
        ReleasedPending(ops, k, b, c, l);
      }
    }
  }

  lemma ReleaseShape(k: Kids, b: BindingId)
    requires b in k.bindings
    ensures Release(k, b).waits.Keys == k.waits.Keys
    ensures !Registered(k.children, b, k.bindings[b]) ==> Release(k, b) == k
  {
  }

  lemma ReleasedKeys(ops: Ops, k: Kids, b: BindingId, id: OpId)
    requires WaitInv(ops, k.waits, k.bindings, k.children, k.acks) && b in k.bindings && id in k.waits
    ensures id in Release(k, b).waits && Release(k, b).waits[id].Keys == k.waits[id].Keys
  {
    hide GoodWait;
    if (id, b) in k.bindings[b].lockAcks { assert GoodPending(ops, k.waits, b, (id, b), k.bindings[b].lockAcks[(id, b)]); }
  }

  lemma ReleasedWait(ops: Ops, k: Kids, b: BindingId, id: OpId, c: BindingId)
    requires WaitInv(ops, k.waits, k.bindings, k.children, k.acks) && b in k.bindings && Registered(k.children, b, k.bindings[b])
    requires var r := Release(k, b); id in r.waits && c in r.waits[id]
    ensures var r := Release(k, b); GoodWait(ops, r.bindings, r.children, r.acks, id, c, r.waits[id][c])
  {
    hide GoodPending;
    ReleasedKeys(ops, k, b, id);
    assert GoodWait(ops, k.bindings, k.children, k.acks, id, c, k.waits[id][c]);
  }

  lemma ReleasedPending(ops: Ops, k: Kids, b: BindingId, c: BindingId, l: LockId)
    requires WaitInv(ops, k.waits, k.bindings, k.children, k.acks) && b in k.bindings && Registered(k.children, b, k.bindings[b])
    requires var r := Release(k, b); c in r.bindings && l in r.bindings[c].lockAcks
    ensures var r := Release(k, b); GoodPending(ops, r.waits, c, l, r.bindings[c].lockAcks[l])
  {
    hide GoodWait;
    assert c != b && l in k.bindings[c].lockAcks;
    assert GoodPending(ops, k.waits, c, l, k.bindings[c].lockAcks[l]);
  }

  /** A new drain's waits are open, and its lock ids are new. */
  lemma WaitDrain(ops: Ops, k: Kids, id: OpId, op: Op, reached: set<BindingId>)
    requires WaitInv(ops, k.waits, k.bindings, k.children, k.acks)
    requires id in ops && ops[id].stage == Queued && op.stage == Draining
    ensures var r := SendLocks(k, id, op.user, op.generation, reached);
            WaitInv(ops[id := op], r.waits, r.bindings, r.children, r.acks)
  {
    hide GoodWait, GoodPending, SendLocks;
    var (t, r) := (ops[id := op], SendLocks(k, id, op.user, op.generation, reached));
    assert id !in k.waits;
    SentLocks(k, id, op.user, op.generation, reached);
    forall i, c | i in r.waits && c in r.waits[i]
      ensures GoodWait(t, r.bindings, r.children, r.acks, i, c, r.waits[i][c])
    {
      SentWait(ops, k, id, op, reached, i, c);
    }
    forall c, l | c in r.bindings && l in r.bindings[c].lockAcks
      ensures GoodPending(t, r.waits, c, l, r.bindings[c].lockAcks[l])
    {
      SentPending(ops, k, id, op, reached, c, l);
    }
  }

  lemma SentLocks(k: Kids, id: OpId, u: UserId, generation: nat, reached: set<BindingId>)
    ensures var r := SendLocks(k, id, u, generation, reached);
            r.bindings.Keys == k.bindings.Keys && r.waits.Keys == k.waits.Keys + {id}
            && r.children == k.children && r.acks == k.acks
  {
  }

  lemma SentWait(ops: Ops, k: Kids, id: OpId, op: Op, reached: set<BindingId>, i: OpId, c: BindingId)
    requires WaitInv(ops, k.waits, k.bindings, k.children, k.acks) && id in ops && id !in k.waits
    requires var r := SendLocks(k, id, op.user, op.generation, reached); i in r.waits && c in r.waits[i]
    ensures var r := SendLocks(k, id, op.user, op.generation, reached);
            GoodWait(ops[id := op], r.bindings, r.children, r.acks, i, c, r.waits[i][c])
  {
    if i != id { assert GoodWait(ops, k.bindings, k.children, k.acks, i, c, k.waits[i][c]); }
  }

  lemma SentPending(ops: Ops, k: Kids, id: OpId, op: Op, reached: set<BindingId>, c: BindingId, l: LockId)
    requires WaitInv(ops, k.waits, k.bindings, k.children, k.acks) && id in ops && id !in k.waits
    requires var r := SendLocks(k, id, op.user, op.generation, reached); c in r.bindings && l in r.bindings[c].lockAcks
    ensures var r := SendLocks(k, id, op.user, op.generation, reached);
            GoodPending(ops[id := op], r.waits, c, l, r.bindings[c].lockAcks[l])
  {
    if l in k.bindings[c].lockAcks { assert GoodPending(ops, k.waits, c, l, k.bindings[c].lockAcks[l]); }
  }

  // ---------------------------------------------------------------- coverage

  /** While a drain for `u` runs, whatever exposes `u` is either waited for, or was attached
      since with `u` as a static user. */
  ghost predicate Covered(op: Op, waited: set<BindingId>, b: BindingId, binding: Binding, children: Children) {
    Registered(children, b, binding) && Exposes(binding, op.user) ==>
      b in waited || (op.horizon <= b && op.user in binding.authority.staticUsers)
  }

  ghost predicate DrainsFor(ops: Ops, waits: Waits, id: OpId) {
    id in ops && ops[id].stage == Draining && id in waits
  }

  ghost predicate CoverInv(ops: Ops, waits: Waits, bindings: Bindings, children: Children, nextBinding: BindingId) {
    && (forall id | DrainsFor(ops, waits, id) :: ops[id].horizon <= nextBinding)
    && (forall id, b | DrainsFor(ops, waits, id) && b in bindings :: Covered(ops[id], waits[id].Keys, b, bindings[b], children))
  }

  /** Ops that are not draining do not matter, and drains keep their user, horizon and waits. */
  lemma CoverFrame(ops: Ops, waits: Waits, bindings: Bindings, children: Children, nextBinding: BindingId, ops': Ops, waits': Waits)
    requires CoverInv(ops, waits, bindings, children, nextBinding)
    requires forall id | DrainsFor(ops', waits', id) ::
               DrainsFor(ops, waits, id) && ops'[id].user == ops[id].user && ops'[id].horizon == ops[id].horizon
               && waits'[id].Keys == waits[id].Keys
    ensures CoverInv(ops', waits', bindings, children, nextBinding)
  {
    forall id, b | DrainsFor(ops', waits', id) && b in bindings
      ensures Covered(ops'[id], waits'[id].Keys, b, bindings[b], children)
    {
      assert Covered(ops[id], waits[id].Keys, b, bindings[b], children);
    }
  }

  /** A binding may change if it exposes no user being drained that it did not expose before. */
  ghost predicate NoNewExposure(ops: Ops, waits: Waits, x: Binding, y: Binding) {
    && y.child == x.child && y.authority.staticUsers == x.authority.staticUsers
    && forall id | DrainsFor(ops, waits, id) && Exposes(y, ops[id].user) :: Exposes(x, ops[id].user)
  }

  lemma CoverUpdate(ops: Ops, waits: Waits, bindings: Bindings, children: Children, nextBinding: BindingId, b: BindingId, x: Binding)
    requires CoverInv(ops, waits, bindings, children, nextBinding) && b in bindings
    requires NoNewExposure(ops, waits, bindings[b], x)
    ensures CoverInv(ops, waits, bindings[b := x], children, nextBinding)
  {
    var y := bindings[b := x];
    forall id, c | DrainsFor(ops, waits, id) && c in y
      ensures Covered(ops[id], waits[id].Keys, c, y[c], children)
    {
      assert Covered(ops[id], waits[id].Keys, c, bindings[c], children);
    }
  }

  lemma CoverDrop(ops: Ops, waits: Waits, bindings: Bindings, children: Children, nextBinding: BindingId, c: Child)
    requires CoverInv(ops, waits, bindings, children, nextBinding)
    ensures CoverInv(ops, waits, bindings, children - {c}, nextBinding)
  {
    forall id, b | DrainsFor(ops, waits, id) && b in bindings
      ensures Covered(ops[id], waits[id].Keys, b, bindings[b], children - {c})
    {
      assert Covered(ops[id], waits[id].Keys, b, bindings[b], children);
    }
  }

  lemma CoverAttach(ops: Ops, k: Kids, child: Child, role: Role, users: set<UserId>, verifier: bool, connected: bool)
    requires CoverInv(ops, k.waits, k.bindings, k.children, k.nextBinding)
    requires BindInv(k.bindings, k.children, k.exited, k.nextBinding)
    ensures var r := Attach(k, child, role, users, verifier, connected);
            CoverInv(ops, r.waits, r.bindings, r.children, r.nextBinding)
  {
    var r := Attach(k, child, role, users, verifier, connected);
    if child !in k.children && connected && child !in k.exited {
      forall id, b | DrainsFor(ops, r.waits, id) && b in r.bindings
        ensures Covered(ops[id], r.waits[id].Keys, b, r.bindings[b], r.children)
      {
        if b != k.nextBinding { assert Covered(ops[id], k.waits[id].Keys, b, k.bindings[b], k.children); }
      }
    }
  }

  lemma CoverDrain(ops: Ops, k: Kids, id: OpId, op: Op, reached: set<BindingId>)
    requires CoverInv(ops, k.waits, k.bindings, k.children, k.nextBinding) && id in ops && op.horizon == k.nextBinding
    ensures var r := SendLocks(k, id, op.user, op.generation, reached);
            CoverInv(ops[id := op], r.waits, r.bindings, r.children, r.nextBinding)
  {
    var (t, r) := (ops[id := op], SendLocks(k, id, op.user, op.generation, reached));
    forall i, b | DrainsFor(t, r.waits, i) && b in r.bindings
      ensures Covered(t[i], r.waits[i].Keys, b, r.bindings[b], r.children)
    {
      if i == id {
        assert r.waits[id].Keys == ExposedTo(k.bindings, k.children, op.user);
      } else {
        assert Covered(ops[i], k.waits[i].Keys, b, k.bindings[b], k.children);
      }
    }
  }

  // ---------------------------------------------------------------- requests in flight

  ghost function Inside(requests: map<int, Request>, b: BindingId, u: UserId): set<int> {
    set f | f in requests && requests[f].binding == b && requests[f].user == u && requests[f].check.InState?
  }

  /** `inFlight` counts the `state` requests a binding is being served. */
  ghost predicate FlightInv(requests: map<int, Request>, bindings: Bindings) {
    && (forall b, u | b in bindings :: Get(bindings[b].inFlight, u) == |Inside(requests, b, u)|)
    && (forall b, u | b in bindings && u in bindings[b].inFlight :: bindings[b].inFlight[u] > 0)
    && (forall f | f in requests :: requests[f].binding in bindings)
  }

  /** Requests may come and go outside `state`, and bindings may change all but their counts. */
  lemma FlightFrame(requests: map<int, Request>, bindings: Bindings, requests': map<int, Request>, bindings': Bindings)
    requires FlightInv(requests, bindings)
    requires forall b, u | b in bindings :: Inside(requests', b, u) == Inside(requests, b, u)
    requires forall f | f in requests' :: requests'[f].binding in bindings
    requires forall b | b in bindings :: b in bindings' && bindings'[b].inFlight == bindings[b].inFlight
    requires forall b | b in bindings' && b !in bindings :: bindings'[b].inFlight == map[]
    ensures FlightInv(requests', bindings')
  {
    forall b, u | b in bindings' ensures Get(bindings'[b].inFlight, u) == |Inside(requests', b, u)| {
      if b !in bindings {
        assert forall f | f in requests' :: requests'[f].binding != b;
        assert Inside(requests', b, u) == {};
      }
    }
  }

  lemma FlightSame(requests: map<int, Request>, bindings: Bindings, bindings': Bindings)
    requires FlightInv(requests, bindings)
    requires forall b | b in bindings :: b in bindings' && bindings'[b].inFlight == bindings[b].inFlight
    requires forall b | b in bindings' && b !in bindings :: bindings'[b].inFlight == map[]
    ensures FlightInv(requests, bindings')
  {
    FlightFrame(requests, bindings, requests, bindings');
  }

  lemma AddedFlight(x: Binding, u: UserId)
    ensures AddInFlight(x, u).inFlight.Keys == x.inFlight.Keys + {u}
    ensures forall v :: Get(AddInFlight(x, u).inFlight, v) == Get(x.inFlight, v) + (if v == u then 1 else 0)
  {
  }

  /** One binding's counts change with the requests inside it. */
  lemma FlightAt(requests: map<int, Request>, bindings: Bindings, requests': map<int, Request>, b: BindingId, x: Binding)
    requires FlightInv(requests, bindings) && b in bindings
    requires forall c, u | c in bindings && c != b :: Inside(requests', c, u) == Inside(requests, c, u)
    requires forall u :: Get(x.inFlight, u) == |Inside(requests', b, u)|
    requires forall u | u in x.inFlight :: x.inFlight[u] > 0
    requires forall f | f in requests' :: requests'[f].binding in bindings
    ensures FlightInv(requests', bindings[b := x])
  {
  }

  lemma FlightEnter(requests: map<int, Request>, bindings: Bindings, f: int, r: Request)
    requires FlightInv(requests, bindings) && f in requests && !requests[f].check.InState?
    requires r == requests[f].(check := InState)
    ensures FlightInv(requests[f := r], bindings[r.binding := AddInFlight(bindings[r.binding], r.user)])
  {
    var (b, t) := (r.binding, requests[f := r]);
    var x := AddInFlight(bindings[b], r.user);
    AddedFlight(bindings[b], r.user);
    forall c, u | c in bindings && (c != b || u != r.user) ensures Inside(t, c, u) == Inside(requests, c, u) {}
    assert Inside(t, b, r.user) == Inside(requests, b, r.user) + {f};
    forall u | u in x.inFlight ensures x.inFlight[u] > 0 { assert Get(x.inFlight, u) == x.inFlight[u]; }
    FlightAt(requests, bindings, t, b, x);
  }

  lemma FlightLeave(requests: map<int, Request>, bindings: Bindings, f: int)
    requires FlightInv(requests, bindings) && f in requests && requests[f].check.InState?
    ensures var r := requests[f];
            FlightInv(requests - {f}, bindings[r.binding := DropInFlight(bindings[r.binding], r.user)])
  {
    var r := requests[f];
    var (b, t) := (r.binding, requests - {f});
    var x := DropInFlight(bindings[b], r.user);
    assert f in Inside(requests, b, r.user);
    forall c, u | c in bindings && (c != b || u != r.user) ensures Inside(t, c, u) == Inside(requests, c, u) {}
    assert Inside(t, b, r.user) == Inside(requests, b, r.user) - {f};
    assert Get(bindings[b].inFlight, r.user) == |Inside(requests, b, r.user)|;
    forall u ensures Get(x.inFlight, u) == |Inside(t, b, u)| {
      if u != r.user { assert Get(x.inFlight, u) == Get(bindings[b].inFlight, u); }
    }
    FlightAt(requests, bindings, t, b, x);
  }
}
