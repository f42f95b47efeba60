/** Every step of the broker keeps the whole invariant, and some things never go back. */
module VaultSafety {
  import opened Identifiers
  import opened SessionAuthority
  import opened VaultBarrier
  import opened VaultCalls
  import opened VaultDrains

  ghost predicate KidInv(ops: Ops, k: Kids) {
    && BindInv(k.bindings, k.children, k.exited, k.nextBinding)
    && WaitInv(ops, k.waits, k.bindings, k.children, k.acks)
    && CoverInv(ops, k.waits, k.bindings, k.children, k.nextBinding)
  }

  ghost predicate FrameInv(bindings: Bindings, f: Frames) {
    && FlightInv(f.requests, bindings)
    && (forall g | g in f.grants :: f.grants[g].binding in bindings)
    && (forall r | r in f.requests :: r < f.nextFrame)
  }

  ghost predicate Inv(s: Broker) {
    CallInv(s.calls) && KidInv(s.calls.ops, s.kids) && FrameInv(s.kids.bindings, s.frames)
  }

  /** What a drain waits for is fixed when it starts, acknowledgements and exits are never
      forgotten, and closed authority stays closed. */
  ghost predicate KidsGrow(k: Kids, r: Kids) {
    && (forall id | id in k.waits :: id in r.waits && r.waits[id].Keys == k.waits[id].Keys)
    && (forall b | b in k.bindings :: b in r.bindings && (k.bindings[b].authority.closed ==> r.bindings[b].authority.closed))
    && k.acks <= r.acks && k.exited <= r.exited && k.nextBinding <= r.nextBinding
  }

  /** No request enters or leaves `state`. */
  ghost predicate SameCounts(x: Bindings, y: Bindings) {
    && (forall b | b in x :: b in y && y[b].inFlight == x[b].inFlight)
    && (forall b | b in y && b !in x :: y[b].inFlight == map[])
  }

  ghost predicate KidStep(ops: Ops, k: Kids, r: Kids) {
    KidInv(ops, r) && KidsGrow(k, r) && SameCounts(k.bindings, r.bindings)
  }

  lemma KidStepTwice(ops: Ops, k: Kids, r: Kids, q: Kids)
    requires KidStep(ops, k, r) && KidStep(ops, r, q)
    ensures KidStep(ops, k, q)
  {
    hide KidInv;
  }

  lemma KidStays(ops: Ops, k: Kids)
    requires KidInv(ops, k)
    ensures KidStep(ops, k, k)
  {
    hide KidInv;
  }

  lemma FrameSame(x: Bindings, y: Bindings, f: Frames)
    requires FrameInv(x, f) && SameCounts(x, y)
    ensures FrameInv(y, f)
  {
    FlightSame(f.requests, x, y);
  }

  // ---------------------------------------------------------------- facts about single parts

  lemma KnownBinding(ops: Ops, k: Kids, b: BindingId)
    requires KidInv(ops, k) && b in k.bindings
    ensures GoodBinding(b, k.bindings[b], k.children, k.exited) && AuthorityInv(k.bindings[b].authority)
  {
  }

  lemma KnownPending(ops: Ops, k: Kids, b: BindingId, l: LockId)
    requires KidInv(ops, k) && b in k.bindings && l in k.bindings[b].lockAcks
    ensures GoodPending(ops, k.waits, b, l, k.bindings[b].lockAcks[l])
  {
  }

  lemma KnownWait(ops: Ops, k: Kids, id: OpId, b: BindingId)
    requires KidInv(ops, k) && id in k.waits && b in k.waits[id]
    ensures GoodWait(ops, k.bindings, k.children, k.acks, id, b, k.waits[id][b])
  {
  }

  lemma NewBinding(ops: Ops, k: Kids)
    requires KidInv(ops, k)
    ensures k.nextBinding !in k.bindings
  {
  }

  lemma NotDrained(ops: Ops, k: Kids, id: OpId)
    requires KidInv(ops, k) && (id in ops ==> ops[id].stage == Queued)
    ensures id !in k.waits
  {
  }

  // ---------------------------------------------------------------- children

  /** Counts and pending acknowledgements may shrink. */
  lemma SameExposure(ops: Ops, k: Kids, b: BindingId, x: Binding)
    requires KidInv(ops, k) && b in k.bindings
    requires x == k.bindings[b].(inFlight := x.inFlight, lockAcks := x.lockAcks)
    requires x.lockAcks.Keys <= k.bindings[b].lockAcks.Keys
    requires forall u :: Get(x.inFlight, u) <= Get(k.bindings[b].inFlight, u)
    ensures GoodBinding(b, x, k.children, k.exited) && NoNewExposure(ops, k.waits, k.bindings[b], x)
  {
    KnownBinding(ops, k, b);
  }

  lemma SetWaitKeeps(ops: Ops, k: Kids, id: OpId, b: BindingId, w: Wait, acks: set<Ack>)
    requires KidInv(ops, k) && id in k.waits && b in k.waits[id] && w != AwaitAck && b in k.bindings && k.acks <= acks
    requires id in ops && w == Acked ==> Ack(b, (id, b), ops[id].user, ops[id].generation) in acks
    requires w == Released ==> !Registered(k.children, b, k.bindings[b])
    ensures KidStep(ops, k, SetWait(k, id, b, w).(acks := acks))
  {
    hide BindInv, WaitInv, CoverInv, GoodBinding, NoNewExposure, GoodWait, GoodPending;
    var x := k.bindings[b].(lockAcks := k.bindings[b].lockAcks - {(id, b)});
    var r := SetWait(k, id, b, w).(acks := acks);
    SameExposure(ops, k, b, x);
    BindUpdate(k.bindings, k.children, k.exited, k.nextBinding, b, x);
    WaitSet(ops, k, id, b, w, acks);
    CoverUpdate(ops, k.waits, k.bindings, k.children, k.nextBinding, b, x);
    CoverFrame(ops, k.waits, r.bindings, k.children, k.nextBinding, ops, r.waits);
  }

  /** A wait is escalated, given up, or settled because its binding is gone. */
  lemma EscalateKeeps(ops: Ops, k: Kids, id: OpId, b: BindingId, w: Wait)
    requires KidInv(ops, k) && id in k.waits && b in k.waits[id] && b in k.bindings
    requires w != AwaitAck && w != Acked && (w == Released ==> !Registered(k.children, b, k.bindings[b]))
    ensures KidStep(ops, k, SetWait(k, id, b, w))
  {
    hide KidInv, KidStep;
    SetWaitKeeps(ops, k, id, b, w, k.acks);
    assert SetWait(k, id, b, w).(acks := k.acks) == SetWait(k, id, b, w);
  }

  lemma AckKeeps(ops: Ops, k: Kids, child: Child, lockId: LockId, owner: UserId, generation: nat, genuine: bool)
    requires KidInv(ops, k)
    ensures KidStep(ops, k, AckMessage(k, child, lockId, owner, generation, genuine))
  {
    hide KidInv, KidsGrow, SameCounts, SetWait;
    KidStays(ops, k);
    if Known(k, child) && lockId in k.bindings[k.children[child]].lockAcks {
      var b := k.children[child];
      KnownPending(ops, k, b, lockId);
      if k.bindings[b].lockAcks[lockId] == PendingAck(owner, generation) {
        SetWaitKeeps(ops, k, lockId.0, b, Acked, k.acks + {Ack(b, lockId, owner, generation)});
      }
    }
  }

  lemma ReleaseKeeps(ops: Ops, k: Kids, b: BindingId)
    requires KidInv(ops, k) && b in k.bindings
    requires k.bindings[b].child in k.exited || !k.bindings[b].capabilitySent
    ensures KidStep(ops, k, Release(k, b)) && b in Release(k, b).bindings
    ensures !Registered(Release(k, b).children, b, Release(k, b).bindings[b])
  {
    hide BindInv, WaitInv, CoverInv, Release;
    BindRelease(k, b);
    WaitRelease(ops, k, b);
    ReleaseCovers(ops, k, b);
    ReleaseGrows(k, b);
  }

  /** Closing its authority exposes a binding to nobody new. */
  lemma ReleaseCovers(ops: Ops, k: Kids, b: BindingId)
    requires KidInv(ops, k) && b in k.bindings
    ensures var r := Release(k, b); CoverInv(ops, r.waits, r.bindings, r.children, r.nextBinding)
  {
    hide BindInv, WaitInv, CoverInv, Close;
    var r := Release(k, b);
    WaitRelease(ops, k, b);
    CloseShrinks(k.bindings[b].authority);
    CoverFrame(ops, k.waits, k.bindings, k.children, k.nextBinding, ops, r.waits);
    CoverUpdate(ops, r.waits, k.bindings, k.children, k.nextBinding, b, r.bindings[b]);
    CoverDrop(ops, r.waits, r.bindings, k.children, k.nextBinding, k.bindings[b].child);
    assert r.bindings == k.bindings[b := r.bindings[b]];
  }

  lemma ReleaseGrows(k: Kids, b: BindingId)
    requires b in k.bindings
    ensures var r := Release(k, b);
            && r.acks == k.acks && r.exited == k.exited && r.nextBinding == k.nextBinding && SameCounts(k.bindings, r.bindings)
            && forall c | c in k.bindings :: c in r.bindings && (k.bindings[c].authority.closed ==> r.bindings[c].authority.closed)
  {
    CloseShrinks(k.bindings[b].authority);
  }

  lemma ExitProvenKeeps(ops: Ops, k: Kids, id: OpId, b: BindingId)
    requires KidInv(ops, k) && Signalled(k, id, b) && k.bindings[b].child in k.exited
    ensures KidStep(ops, k, SetWait(Release(k, b), id, b, Released))
  {
    hide KidInv, SetWait, Release;
    ReleaseKeeps(ops, k, b);
    var r := Release(k, b);
    EscalateKeeps(ops, r, id, b, Released);
    KidStepTwice(ops, k, r, SetWait(r, id, b, Released));
  }

  lemma ExitsKeeps(ops: Ops, k: Kids, child: Child)
    requires KidInv(ops, k)
    ensures KidStep(ops, k, k.(exited := k.exited + {child}))
  {
    hide WaitInv, CoverInv;
    forall b | b in k.bindings ensures GoodBinding(b, k.bindings[b], k.children, k.exited + {child}) {
      assert GoodBinding(b, k.bindings[b], k.children, k.exited);
    }
  }

  lemma AttachKeeps(ops: Ops, k: Kids, child: Child, role: Role, users: set<UserId>, verifier: bool, connected: bool)
    requires KidInv(ops, k)
    ensures KidStep(ops, k, Attach(k, child, role, users, verifier, connected))
  {
    hide BindInv, WaitInv, CoverInv, GoodBinding, NoNewExposure, GoodWait, GoodPending;
    var r := Attach(k, child, role, users, verifier, connected);
    BindAttach(k, child, role, users, verifier, connected);
    CoverAttach(ops, k, child, role, users, verifier, connected);
    NewBinding(ops, k);
    forall b | b in k.bindings ensures Registered(r.children, b, r.bindings[b]) ==> Registered(k.children, b, k.bindings[b]) {
    }
    WaitBindings(ops, k.waits, k.bindings, k.children, k.acks, r.bindings, r.children);
  }

  /** A binding may change in everything but its child, acknowledgements and counts. */
  lemma UpdateKeeps(ops: Ops, k: Kids, b: BindingId, x: Binding)
    requires KidInv(ops, k) && b in k.bindings
    requires x.child == k.bindings[b].child && x.lockAcks == k.bindings[b].lockAcks && x.inFlight == k.bindings[b].inFlight
    requires k.bindings[b].authority.closed ==> x.authority.closed
    requires GoodBinding(b, x, k.children, k.exited) && NoNewExposure(ops, k.waits, k.bindings[b], x)
    ensures KidStep(ops, k, k.(bindings := k.bindings[b := x]))
  {
    hide BindInv, WaitInv, CoverInv, GoodBinding, NoNewExposure, GoodWait, GoodPending;
    var bindings := k.bindings[b := x];
    BindUpdate(k.bindings, k.children, k.exited, k.nextBinding, b, x);
    CoverUpdate(ops, k.waits, k.bindings, k.children, k.nextBinding, b, x);
    WaitBindings(ops, k.waits, k.bindings, k.children, k.acks, bindings, k.children);
  }

  lemma AttachmentKeeps(ops: Ops, k: Kids, b: BindingId, a: Attachment, sent: bool)
    requires KidInv(ops, k) && b in k.bindings && a != Loading
    requires sent ==> LiveAttachment(k, b, true)
    ensures KidStep(ops, k, SetAttachment(k, b, a, sent))
  {
    hide KidInv;
    KnownBinding(ops, k, b);
    UpdateKeeps(ops, k, b, SetAttachment(k, b, a, sent).bindings[b]);
  }

  lemma AbandonKeeps(ops: Ops, k: Kids, b: BindingId)
    requires KidInv(ops, k) && b in k.bindings
    requires k.bindings[b].child in k.exited || !k.bindings[b].capabilitySent
    ensures KidStep(ops, k, SetAttachment(Release(k, b), b, Abandoned, false))
  {
    hide KidInv, Release, SetAttachment;
    var r := Release(k, b);
    ReleaseKeeps(ops, k, b);
    AttachmentKeeps(ops, r, b, Abandoned, false);
    KidStepTwice(ops, k, r, SetAttachment(r, b, Abandoned, false));
  }

  lemma AttachLoadedKeeps(ops: Ops, k: Kids, b: BindingId, loaded: bool, connected: bool)
    requires KidInv(ops, k) && Attaching(k, b, Loading)
    ensures KidStep(ops, k, AttachLoaded(k, b, loaded, connected))
  {
    hide KidInv, KidStep, Release, SetAttachment;
    KnownBinding(ops, k, b);
    AbandonKeeps(ops, k, b);
    if loaded && LiveAttachment(k, b, connected) { AttachmentKeeps(ops, k, b, Offered, true); }
  }

  lemma AttachDeliveredKeeps(ops: Ops, k: Kids, b: BindingId, delivered: bool, connected: bool, more: bool)
    requires KidInv(ops, k) && Attaching(k, b, Offered)
    ensures KidStep(ops, k, AttachDelivered(k, b, delivered, connected, more))
  {
    hide KidInv, KidStep, Release, SetAttachment;
    AttachmentKeeps(ops, k, b, if more then Offered else Attached, false);
    AttachmentKeeps(ops, k, b, Abandoned, false);
    if k.bindings[b].child in k.exited { AbandonKeeps(ops, k, b); }
  }

  lemma ExitEventKeeps(ops: Ops, k: Kids, c: Child)
    requires KidInv(ops, k) && Known(k, c) && c in k.exited
    ensures KidStep(ops, k, Release(k, k.children[c]))
  {
    hide WaitInv, CoverInv, KidStep, Release;
    ReleaseKeeps(ops, k, k.children[c]);
  }

  lemma ChildKeeps(ops: Ops, k: Kids, e: ChildEvent)
    requires KidInv(ops, k) && ChildEnabled(k, e)
    ensures KidStep(ops, k, ChildApply(k, e))
  {
    hide KidInv, KidStep, Release, SetWait, AckMessage, Attach, AttachLoaded, AttachDelivered;
    match e
    case AckArrives(c, lockId, u, generation, genuine) => AckKeeps(ops, k, c, lockId, u, generation, genuine);
    case AckTimesOut(id, b) => EscalateKeeps(ops, k, id, b, Terminating);
    case ExitIsProven(id, b) => ExitProvenKeeps(ops, k, id, b);
    case ExitIsUnproven(id, b) => EscalateKeeps(ops, k, id, b, if k.waits[id][b] == Terminating then Killing else Unproven);
    case ChildExits(c) => ExitsKeeps(ops, k, c);
    case ExitIsObserved(c) => ExitEventKeeps(ops, k, c);
    case CallAttach(c, role, users, verifier, connected) => AttachKeeps(ops, k, c, role, users, verifier, connected);
    case ValidatorsLoad(b, loaded, connected) => AttachLoadedKeeps(ops, k, b, loaded, connected);
    case DeliveryEnds(b, delivered, connected, more) => AttachDeliveredKeeps(ops, k, b, delivered, connected, more);
  }

  // ---------------------------------------------------------------- calls and sections

  /** A call joins, finishes or returns: nothing about the children changes. */
  lemma CallKeepsKids(ops: Ops, more: Ops, k: Kids)
    requires KidInv(ops, k)
    requires forall id | id in ops :: id in more && more[id].user == ops[id].user && more[id].horizon == ops[id].horizon
               && (ops[id].stage != Queued ==> more[id].stage != Queued && more[id].generation == ops[id].generation)
    requires forall id | id in more && more[id].stage == Draining :: id in ops && ops[id].stage == Draining
    ensures KidInv(more, k)
  {
    hide CoverInv, BindInv;
    WaitOps(ops, more, k.waits, k.bindings, k.children, k.acks);
    CoverFrame(ops, k.waits, k.bindings, k.children, k.nextBinding, more, k.waits);
  }

  lemma SendKeeps(ops: Ops, k: Kids, id: OpId, op: Op, reached: set<BindingId>)
    requires KidInv(ops, k) && id in ops && ops[id].stage == Queued
    requires op.stage == Draining && op.user == ops[id].user && op.horizon == k.nextBinding
    ensures var r := SendLocks(k, id, op.user, op.generation, reached);
            KidInv(ops[id := op], r) && KidsGrow(k, r) && SameCounts(k.bindings, r.bindings)
  {
    hide BindInv, WaitInv, CoverInv, GoodBinding, NoNewExposure, GoodWait, GoodPending;
    NotDrained(ops, k, id);
    BindDrain(k, id, op.user, op.generation, reached);
    WaitDrain(ops, k, id, op, reached);
    CoverDrain(ops, k, id, op, reached);
  }

  // ---------------------------------------------------------------- sessions

  /** Shapes shared by most steps of an authority: `users` only shrinks, `closed` only rises. */
  ghost predicate Narrows(a: Authority, c: Authority) {
    AuthorityInv(c) && c.users <= a.users && c.staticUsers == a.staticUsers && (a.closed ==> c.closed)
  }

  lemma AuthorityKeeps(ops: Ops, k: Kids, b: BindingId, a: Authority)
    requires KidInv(ops, k) && b in k.bindings && Narrows(k.bindings[b].authority, a)
    ensures KidStep(ops, k, SetAuthority(k, b, a))
  {
    hide KidInv, AuthorityInv;
    KnownBinding(ops, k, b);
    UpdateKeeps(ops, k, b, k.bindings[b].(authority := a));
  }

  lemma RemoveShrinks(a: Authority, gone: set<SessionId>)
    ensures RemoveGrants(a, gone).users <= a.users && RemoveGrants(a, gone).staticUsers == a.staticUsers
    ensures RemoveGrants(a, gone).closed == a.closed
  {
  }

  lemma TombstoneStatic(a: Authority, session: SessionId, until: int, now: int)
    ensures Tombstone(a, session, until, now).staticUsers == a.staticUsers
  {
  }

  lemma PruneShrinks(a: Authority, now: int)
    ensures Prune(a, now).users <= a.users && Prune(a, now).staticUsers == a.staticUsers && Prune(a, now).closed == a.closed
  {
  }

  lemma CloseNarrows(a: Authority)
    requires AuthorityInv(a)
    ensures Narrows(a, Close(a))
  {
    CloseKeeps(a);
  }

  lemma AdmitNarrows(a: Authority, id: RequestId, genuine: bool, now: int)
    requires AuthorityInv(a)
    ensures Narrows(a, Admit(a, id, genuine, now).0)
  {
    hide AuthorityInv, Prune, Close;
    AdmitKeeps(a, id, genuine, now);
    PruneShrinks(a, now);
    CloseShrinks(Prune(a, now));
  }

  lemma TombstoneNarrows(a: Authority, session: SessionId, until: int, now: int)
    requires AuthorityInv(a)
    ensures Narrows(a, RemoveGrant(Tombstone(a, session, until, now), session))
  {
    hide AuthorityInv, Tombstone, RemoveGrants;
    TombstoneKeeps(a, session, until, now);
    TombstoneStatic(a, session, until, now);
    RemoveShrinks(Tombstone(a, session, until, now), {session});
  }

  lemma RevokeNarrows(a: Authority, id: RequestId, session: SessionId, genuine: bool, now: int)
    requires AuthorityInv(a)
    ensures Narrows(a, Revoke(a, id, session, genuine, now))
  {
    hide AuthorityInv;
    AdmitNarrows(a, id, genuine, now);
    TombstoneNarrows(Admit(a, id, genuine, now).0, session, now + MAX_AUTHORITY_MS, now);
  }

  lemma ExpireNarrows(a: Authority, session: SessionId, until: int, now: int)
    requires AuthorityInv(a)
    ensures Narrows(a, Expire(a, session, until, now))
  {
    hide AuthorityInv, RemoveGrants, Tombstone, Prune;
    ExpireKeeps(a, session, until, now);
    RemoveGrantsKeeps(a, {session});
    RemoveShrinks(a, {session});
    TombstoneKeeps(RemoveGrant(a, session), session, until, now);
    TombstoneStatic(RemoveGrant(a, session), session, until, now);
  }

  lemma RemoveNarrows(a: Authority, session: SessionId)
    requires AuthorityInv(a)
    ensures Narrows(a, RemoveGrant(a, session))
  {
    hide AuthorityInv, RemoveGrants;
    RemoveGrantsKeeps(a, {session});
    RemoveShrinks(a, {session});
  }

  lemma RecheckNarrows(a: Authority, session: SessionId, until: int, v: Verification, now: int)
    requires AuthorityInv(a)
    ensures Narrows(a, Recheck(a, session, until, v, now))
  {
    hide AuthorityInv, Tombstone, RemoveGrant;
    TombstoneNarrows(a, session, until, now);
    RemoveNarrows(a, session);
  }

  /** The owner of a new grant has no pending calls, hence no drain it could escape. */
  lemma GrantKeeps(c: Calls, k: Kids, b: BindingId, a: Authority, owner: UserId)
    requires CallInv(c) && KidInv(c.ops, k) && b in k.bindings && Registered(k.children, b, k.bindings[b])
    requires Get(c.depth, owner) == 0 && AuthorityInv(a) && a.users <= k.bindings[b].authority.users + {owner}
    requires a.staticUsers == k.bindings[b].authority.staticUsers && !k.bindings[b].authority.closed
    ensures KidStep(c.ops, k, SetAuthority(k, b, a))
  {
    hide KidInv, AuthorityInv, OpsInv, EpochInv, GenInv, KeyInv, DepthInv;
    KnownBinding(c.ops, k, b);
    QuietUser(c.ops, c.depth, owner);
    UpdateKeeps(c.ops, k, b, k.bindings[b].(authority := a));
  }

  lemma InstallAt(s: Broker, f: int, v: Verification, now: int)
    requires Inv(s) && GrantAt(s, f) && CanInstallGrant(s, f, v, now)
    ensures var g := s.frames.grants[f];
            var a := Install(s.kids.bindings[g.binding].authority, g.request, now, s.frames.nextFrame).0;
            KidStep(s.calls.ops, s.kids, SetAuthority(s.kids, g.binding, a))
  {
    hide CallInv, KidInv, KidStep, FrameInv, AuthorityInv, Install, SetAuthority;
    var g := s.frames.grants[f];
    var a := s.kids.bindings[g.binding].authority;
    KnownBinding(s.calls.ops, s.kids, g.binding);
    InstallKeeps(a, g.request, now, s.frames.nextFrame);
    GrantKeeps(s.calls, s.kids, g.binding, Install(a, g.request, now, s.frames.nextFrame).0, g.request.owner);
  }

  // ---------------------------------------------------------------- requests

  lemma FlightOthers(bindings: Bindings, f: Frames, requests: map<int, Request>)
    requires FrameInv(bindings, f)
    requires forall b, u | b in bindings :: Inside(requests, b, u) == Inside(f.requests, b, u)
    requires forall r | r in requests :: requests[r].binding in bindings
    ensures FlightInv(requests, bindings)
  {
    FlightFrame(f.requests, bindings, requests, bindings);
  }

  lemma AddRequestKeeps(bindings: Bindings, f: Frames, r: Request)
    requires FrameInv(bindings, f) && r.binding in bindings && !r.check.InState?
    ensures FrameInv(bindings, AddRequest(f, r))
  {
    var g := AddRequest(f, r);
    forall b, u | b in bindings ensures Inside(g.requests, b, u) == Inside(f.requests, b, u) {}
    FlightOthers(bindings, f, g.requests);
  }

  lemma AddGrantKeeps(bindings: Bindings, f: Frames, g: PendingGrant)
    requires FrameInv(bindings, f) && g.binding in bindings
    ensures FrameInv(bindings, AddGrant(f, g))
  {
  }

  /** A request outside `state` leaves, or is decided. */
  lemma DropRequestKeeps(bindings: Bindings, f: Frames, r: int)
    requires FrameInv(bindings, f) && r in f.requests && !f.requests[r].check.InState?
    ensures FrameInv(bindings, f.(requests := f.requests - {r}))
  {
    forall b, u | b in bindings ensures Inside(f.requests - {r}, b, u) == Inside(f.requests, b, u) {}
    FlightOthers(bindings, f, f.requests - {r});
  }

  lemma DecideKeeps(bindings: Bindings, f: Frames, r: int, authorized: bool)
    requires FrameInv(bindings, f) && r in f.requests && !f.requests[r].check.InState?
    ensures FrameInv(bindings, SetCheck(f, r, Decided(authorized)))
  {
    var g := SetCheck(f, r, Decided(authorized));
    forall b, u | b in bindings ensures Inside(g.requests, b, u) == Inside(f.requests, b, u) {}
    FlightOthers(bindings, f, g.requests);
  }

  lemma RepliesKeep(bindings: Bindings, f: Frames, replies: seq<Reply>)
    requires FrameInv(bindings, f)
    ensures FrameInv(bindings, f.(replies := replies))
  {
  }

  /** Counts of one binding change for a user without a drain, or only shrink. */
  lemma CountKeeps(c: Calls, k: Kids, b: BindingId, x: Binding)
    requires CallInv(c) && KidInv(c.ops, k) && b in k.bindings && x == k.bindings[b].(inFlight := x.inFlight)
    requires forall u :: Get(x.inFlight, u) <= Get(k.bindings[b].inFlight, u) || Get(c.depth, u) == 0
    ensures KidInv(c.ops, SetBinding(k, b, x)) && KidsGrow(k, SetBinding(k, b, x))
  {
    hide BindInv, WaitInv, CoverInv, CallInv, NoNewExposure, AuthorityInv, Get;
    KnownBinding(c.ops, k, b);
    CountsHide(c, k, b, x);
    BindUpdate(k.bindings, k.children, k.exited, k.nextBinding, b, x);
    CoverUpdate(c.ops, k.waits, k.bindings, k.children, k.nextBinding, b, x);
    WaitBindings(c.ops, k.waits, k.bindings, k.children, k.acks, k.bindings[b := x], k.children);
  }

  lemma CountsHide(c: Calls, k: Kids, b: BindingId, x: Binding)
    requires CallInv(c) && b in k.bindings && x == k.bindings[b].(inFlight := x.inFlight)
    requires forall u :: Get(x.inFlight, u) <= Get(k.bindings[b].inFlight, u) || Get(c.depth, u) == 0
    ensures NoNewExposure(c.ops, k.waits, k.bindings[b], x)
  {
    hide OpsInv, EpochInv, GenInv, KeyInv, DepthInv;
    forall id | DrainsFor(c.ops, k.waits, id) && Exposes(x, c.ops[id].user)
      ensures Exposes(k.bindings[b], c.ops[id].user)
    {
      var u := c.ops[id].user;
      if Get(c.depth, u) == 0 { QuietUser(c.ops, c.depth, u); }
    }
  }

  lemma EnterKeeps(s: Broker, f: int)
    requires Inv(s) && RequestAt(s, f) && s.frames.requests[f].check.Decided?
    requires Get(s.calls.depth, s.frames.requests[f].user) == 0
    ensures var r := s.frames.requests[f];
            var k := SetBinding(s.kids, r.binding, AddInFlight(s.kids.bindings[r.binding], r.user));
            KidInv(s.calls.ops, k) && KidsGrow(s.kids, k) && FrameInv(k.bindings, SetCheck(s.frames, f, InState))
  {
    hide CallInv, KidInv;
    var r := s.frames.requests[f];
    AddedFlight(s.kids.bindings[r.binding], r.user);
    CountKeeps(s.calls, s.kids, r.binding, AddInFlight(s.kids.bindings[r.binding], r.user));
    FlightEnter(s.frames.requests, s.kids.bindings, f, r.(check := InState));
  }

  lemma LeaveKeeps(s: Broker, f: int)
    requires Inv(s) && RequestAt(s, f) && s.frames.requests[f].check.InState?
    ensures var r := s.frames.requests[f];
            var k := SetBinding(s.kids, r.binding, DropInFlight(s.kids.bindings[r.binding], r.user));
            KidInv(s.calls.ops, k) && KidsGrow(s.kids, k)
            && FrameInv(k.bindings, s.frames.(requests := s.frames.requests - {f}))
  {
    hide CallInv, KidInv;
    var r := s.frames.requests[f];
    CountKeeps(s.calls, s.kids, r.binding, DropInFlight(s.kids.bindings[r.binding], r.user));
    FlightLeave(s.frames.requests, s.kids.bindings, f);
  }
}
