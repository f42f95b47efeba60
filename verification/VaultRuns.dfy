/** The whole invariant holds in every state of every run, and some things never go back. */
module VaultRuns {
  import opened Identifiers
  import opened SessionAuthority
  import opened VaultBarrier
  import opened VaultCalls
  import opened VaultDrains
  import opened VaultSafety

  // ---------------------------------------------------------------- what never goes back

  /** Epochs only rise, calls keep their user, kind and drained generation, unlocks keep
      the epoch they read, and the log of drains is only appended to. */
  ghost predicate CallsGrow(c: Calls, d: Calls) {
    && (forall u :: Get(c.epochs, u) <= Get(d.epochs, u))
    && (forall id | id in c.ops :: id in d.ops && SameCall(c.ops[id], d.ops[id]))
    && (forall n | n in c.unlocks :: n in d.unlocks && d.unlocks[n].user == c.unlocks[n].user && d.unlocks[n].epoch == c.unlocks[n].epoch)
    && c.nextOp <= d.nextOp && c.nextUnlock <= d.nextUnlock && c.drains <= d.drains
  }

  ghost predicate SameCall(x: Op, y: Op) {
    && y.user == x.user && y.kind == x.kind
    && (x.stage != Queued ==> y.stage != Queued && y.generation == x.generation && y.horizon == x.horizon)
  }

  ghost predicate FramesGrow(f: Frames, g: Frames) {
    f.replies <= g.replies && f.grantReplies <= g.grantReplies
  }

  ghost predicate Grows(s: Broker, t: Broker) {
    CallsGrow(s.calls, t.calls) && KidsGrow(s.kids, t.kids) && FramesGrow(s.frames, t.frames)
  }

  lemma CallsGrowTwice(c: Calls, d: Calls, e: Calls)
    requires CallsGrow(c, d) && CallsGrow(d, e)
    ensures CallsGrow(c, e)
  {
    forall u ensures Get(c.epochs, u) <= Get(e.epochs, u) {
      assert Get(c.epochs, u) <= Get(d.epochs, u) <= Get(e.epochs, u);
    }
    forall id | id in c.ops ensures id in e.ops && SameCall(c.ops[id], e.ops[id]) {
      assert SameCall(c.ops[id], d.ops[id]) && SameCall(d.ops[id], e.ops[id]);
    }
  }

  lemma GrowsTwice(s: Broker, t: Broker, w: Broker)
    requires Grows(s, t) && Grows(t, w)
    ensures Grows(s, w)
  {
    hide CallsGrow;
    CallsGrowTwice(s.calls, t.calls, w.calls);
  }

  lemma SameGrows(s: Broker)
    ensures Grows(s, s)
  {
  }

  lemma LockGrows(c: Calls, u: UserId)
    requires c.nextOp !in c.ops
    ensures CallsGrow(c, LockCall(c, u)) && Get(LockCall(c, u).epochs, u) == Get(c.epochs, u) + 1
  {
    var d := LockCall(c, u);
    forall id | id in c.ops ensures id in d.ops && SameCall(c.ops[id], d.ops[id]) { assert d.ops[id] == c.ops[id]; }
  }

  lemma BeginUnlockGrows(c: Calls, u: UserId)
    requires c.nextUnlock !in c.unlocks
    ensures CallsGrow(c, BeginUnlock(c, u))
  {
  }

  lemma CacheGrows(c: Calls, n: int)
    requires CanCache(c, n) && c.nextOp !in c.ops
    ensures CallsGrow(c, CacheCall(c, n))
  {
    hide Enqueue;
    var (d, unlock) := (c.(unlocks := c.unlocks[n := c.unlocks[n].(cached := true)]), c.unlocks[n]);
    EnqueueKeepsOps(d, unlock.user, Cache(n, unlock.epoch));
  }

  lemma EnqueueKeepsOps(c: Calls, u: UserId, kind: Kind)
    requires c.nextOp !in c.ops
    ensures var d := Enqueue(c, u, kind);
            && (forall id | id in c.ops :: id in d.ops && d.ops[id] == c.ops[id])
            && d.epochs == c.epochs && d.unlocks == c.unlocks && d.nextOp == c.nextOp + 1 && d.nextUnlock == c.nextUnlock && d.drains == c.drains
  {
  }

  lemma OpGrows(c: Calls, d: Calls, id: OpId, op: Op)
    requires id in c.ops && SameCall(c.ops[id], op) && d.ops == c.ops[id := op]
    requires d.epochs == c.epochs && d.unlocks == c.unlocks && d.nextOp == c.nextOp && d.nextUnlock == c.nextUnlock
    requires c.drains <= d.drains
    ensures CallsGrow(c, d)
  {
    forall i | i in c.ops ensures i in d.ops && SameCall(c.ops[i], d.ops[i]) {}
  }

  // ---------------------------------------------------------------- calls and sections

  ghost predicate Keeps(s: Broker, t: Broker) { Inv(t) && Grows(s, t) }

  lemma CallsStep(s: Broker, d: Calls)
    requires Inv(s) && CallInv(d) && CallsGrow(s.calls, d)
    requires forall id | id in d.ops && d.ops[id].stage == Draining :: id in s.calls.ops && s.calls.ops[id].stage == Draining
    requires forall id | id in s.calls.ops :: d.ops[id].horizon == s.calls.ops[id].horizon
    ensures Keeps(s, s.(calls := d))
  {
    hide CallInv, KidInv, FrameInv;
    CallKeepsKids(s.calls.ops, d.ops, s.kids);
    KidStays(s.calls.ops, s.kids);
  }

  lemma LockStep(s: Broker, u: UserId)
    requires Inv(s)
    ensures Keeps(s, s.(calls := LockCall(s.calls, u)))
  {
    hide CallInv, KidInv, FrameInv, CallsGrow, Keeps;
    NewOp(s.calls);
    LockKeeps(s.calls, u);
    LockGrows(s.calls, u);
    CallsStep(s, LockCall(s.calls, u));
  }

  lemma BeginUnlockStep(s: Broker, u: UserId)
    requires Inv(s)
    ensures Keeps(s, s.(calls := BeginUnlock(s.calls, u)))
  {
    hide CallInv, KidInv, FrameInv, CallsGrow, Keeps;
    NewUnlock(s.calls);
    BeginUnlockKeeps(s.calls, u);
    BeginUnlockGrows(s.calls, u);
    CallsStep(s, BeginUnlock(s.calls, u));
  }

  lemma CacheStep(s: Broker, n: int)
    requires Inv(s) && CanCache(s.calls, n)
    ensures Keeps(s, s.(calls := CacheCall(s.calls, n)))
  {
    hide CallInv, KidInv, FrameInv, CallsGrow, Keeps;
    NewOp(s.calls);
    CacheKeeps(s.calls, n);
    CacheGrows(s.calls, n);
    CallsStep(s, CacheCall(s.calls, n));
  }

  /** A section ends or a call returns. */
  lemma MoveStep(s: Broker, d: Calls, id: OpId, op: Op)
    requires Inv(s) && CallInv(d) && id in s.calls.ops && d.ops == s.calls.ops[id := op]
    requires op == s.calls.ops[id].(stage := op.stage, outcome := op.outcome) && Finished(op)
    requires d.epochs == s.calls.epochs && d.unlocks == s.calls.unlocks && d.drains == s.calls.drains
    requires d.nextOp == s.calls.nextOp && d.nextUnlock == s.calls.nextUnlock
    ensures Keeps(s, s.(calls := d))
  {
    hide CallInv, KidInv, FrameInv, CallsGrow, Keeps;
    OpGrows(s.calls, d, id, op);
    CallsStep(s, d);
  }

  lemma EndStep(s: Broker, id: OpId, complete: bool, expiresAt: int, to: set<BindingId>)
    requires Inv(s) && id in s.calls.ops && s.calls.ops[id].stage == Draining
    ensures Keeps(s, s.(calls := SectionEnd(s.calls, id, complete, expiresAt, to)))
  {
    hide CallInv, KidInv, FrameInv, Keeps;
    EndKeeps(s.calls, id, complete, expiresAt, to);
    MoveStep(s, SectionEnd(s.calls, id, complete, expiresAt, to), id,
             s.calls.ops[id].(stage := Done, outcome := Succeeds(s.calls, id, complete)));
  }

  lemma ReturnStep(s: Broker, id: OpId)
    requires Inv(s) && id in s.calls.ops && s.calls.ops[id].stage == Done
    ensures Keeps(s, s.(calls := OpReturn(s.calls, id)))
  {
    hide CallInv, KidInv, FrameInv, Keeps;
    ReturnKeeps(s.calls, id);
    MoveStep(s, OpReturn(s.calls, id), id, OpReturn(s.calls, id).ops[id]);
  }

  lemma DrainStep(s: Broker, c: Calls, id: OpId, generation: nat, reached: set<BindingId>)
    requires Inv(s) && id in c.ops && c.ops[id].stage == Queued && c.ops == s.calls.ops
    requires c.epochs == s.calls.epochs && c.unlocks == s.calls.unlocks && c.drains == s.calls.drains
    requires c.nextOp == s.calls.nextOp && c.nextUnlock == s.calls.nextUnlock
    requires CallInv(LogDrain(c, id, generation, s.kids.nextBinding))
    ensures Keeps(s, StartDrain(s.(calls := c), id, generation, reached))
  {
    hide CallInv, KidInv, FrameInv, SendLocks, CallsGrow;
    var d := LogDrain(c, id, generation, s.kids.nextBinding);
    SendKeeps(s.calls.ops, s.kids, id, d.ops[id], reached);
    OpGrows(s.calls, d, id, d.ops[id]);
    FrameSame(s.kids.bindings, SendLocks(s.kids, id, d.ops[id].user, generation, reached).bindings, s.frames);
  }

  lemma SectionStartStep(s: Broker, id: OpId, reached: set<BindingId>)
    requires Inv(s) && CanStart(s.calls, id)
    ensures Keeps(s, SectionStart(s, id, reached))
  {
    hide CallInv, KidInv, FrameInv, StartDrain, Keeps, LogDrain;
    var c := s.calls;
    if c.ops[id].kind.Lock? {
      DrainLockKeeps(c, id, s.kids.nextBinding);
      DrainStep(s, c, id, c.ops[id].kind.generation, reached);
    } else if Outdated(c, id) {
      SkipKeeps(c, id);
      MoveStep(s, SectionStart(s, id, reached).calls, id, c.ops[id].(stage := Done));
    } else {
      DrainCacheKeeps(c, id, s.kids.nextBinding);
      DrainStep(s, TakeGeneration(c, c.ops[id].user), id, Get(c.generations, c.ops[id].user) + 1, reached);
    }
  }

  lemma OpStep(s: Broker, e: OpEvent)
    requires Inv(s) && OpEnabled(s, e)
    ensures Keeps(s, OpApply(s, e))
  {
    hide Inv, Keeps, LockCall, BeginUnlock, CacheCall, SectionStart, SectionEnd, OpReturn;
    match e
    case CallLock(u) => LockStep(s, u);
    case StartUnlock(u) => BeginUnlockStep(s, u);
    case CallCache(n) => CacheStep(s, n);
    case StartSection(id, reached) => SectionStartStep(s, id, reached);
    case Drained(id, expiresAt) =>
      EndStep(s, id, BarrierComplete(s.kids, id), expiresAt, Recipients(s.kids.bindings, s.kids.children, s.calls.ops[id].user));
    case DrainThrew(id) => EndStep(s, id, false, 0, {});
    case Return(id) => ReturnStep(s, id);
  }

  // ---------------------------------------------------------------- children and sessions

  lemma CallsStay(c: Calls)
    ensures CallsGrow(c, c)
  {
  }

  lemma KidsStep(s: Broker, k: Kids)
    requires Inv(s) && KidStep(s.calls.ops, s.kids, k)
    ensures Keeps(s, s.(kids := k)) && FrameInv(k.bindings, s.frames)
  {
    hide CallInv, KidInv, FrameInv, CallsGrow;
    FrameSame(s.kids.bindings, k.bindings, s.frames);
    CallsStay(s.calls);
  }

  /** The frames change after the children did. */
  lemma FramesStep(s: Broker, t: Broker, f: Frames)
    requires Keeps(s, t) && FrameInv(t.kids.bindings, f) && FramesGrow(t.frames, f)
    ensures Keeps(s, t.(frames := f))
  {
    hide CallInv, KidInv, FrameInv, CallsGrow, KidsGrow;
  }

  lemma ChildStep(s: Broker, e: ChildEvent)
    requires Inv(s) && ChildEnabled(s.kids, e)
    ensures Keeps(s, s.(kids := ChildApply(s.kids, e)))
  {
    hide CallInv, KidInv, FrameInv, ChildApply, KidStep, Keeps;
    ChildKeeps(s.calls.ops, s.kids, e);
    KidsStep(s, ChildApply(s.kids, e));
  }

  lemma AuthorityStep(s: Broker, b: BindingId, a: Authority)
    requires Inv(s) && b in s.kids.bindings && Narrows(s.kids.bindings[b].authority, a)
    ensures Keeps(s, s.(kids := SetAuthority(s.kids, b, a)))
    ensures FrameInv(SetAuthority(s.kids, b, a).bindings, s.frames)
  {
    hide CallInv, KidInv, FrameInv, SetAuthority, KidStep, Narrows, Keeps;
    AuthorityKeeps(s.calls.ops, s.kids, b, a);
    KidsStep(s, SetAuthority(s.kids, b, a));
  }

  lemma AuthorityAt(s: Broker, b: BindingId)
    requires Inv(s) && b in s.kids.bindings
    ensures AuthorityInv(s.kids.bindings[b].authority)
  {
    hide CallInv, KidInv, FrameInv;
    KnownBinding(s.calls.ops, s.kids, b);
  }

  lemma AdmitStep(s: Broker, b: BindingId, m: GrantRequest, genuine: bool, now: int)
    requires Inv(s) && b in s.kids.bindings
    ensures Keeps(s, GrantAdmit(s, b, m, genuine, now))
  {
    hide Inv, Keeps, Narrows, SetAuthority, AddGrant, Admit, FrameInv, AuthorityInv;
    var (a, admitted) := Admit(s.kids.bindings[b].authority, m.requestId, genuine, now);
    AuthorityAt(s, b);
    AdmitNarrows(s.kids.bindings[b].authority, m.requestId, genuine, now);
    AuthorityStep(s, b, a);
    var t := s.(kids := SetAuthority(s.kids, b, a));
    if admitted && MayVerify(a, m, now) && Get(s.calls.depth, m.owner) == 0 {
      var g := PendingGrant(b, m, Get(s.calls.generations, m.owner));
      assert b in t.kids.bindings by { AuthorityDomain(s.kids, b, a); }
      AddGrantKeeps(t.kids.bindings, s.frames, g);
      AddGrantGrows(s.frames, g);
      FramesStep(s, t, AddGrant(s.frames, g));
    }
  }

  lemma AuthorityDomain(k: Kids, b: BindingId, a: Authority)
    requires b in k.bindings
    ensures SetAuthority(k, b, a).bindings.Keys == k.bindings.Keys
  {
  }

  lemma AddGrantGrows(f: Frames, g: PendingGrant)
    ensures FramesGrow(f, AddGrant(f, g))
  {
  }

  lemma DropGrantKeeps(bindings: Bindings, f: Frames, id: int, next: int, replies: seq<GrantReply>)
    requires FrameInv(bindings, f) && f.nextFrame <= next
    ensures var g := f.(grants := f.grants - {id}, nextFrame := next, grantReplies := f.grantReplies + replies);
            FrameInv(bindings, g) && FramesGrow(f, g)
  {
  }

  lemma VerifiedStep(s: Broker, f: int, v: Verification, now: int)
    requires Inv(s) && GrantAt(s, f)
    ensures Keeps(s, GrantVerified(s, f, v, now))
  {
    hide CallInv, KidInv, FrameInv, KidStep, SetAuthority, Install, CanInstallGrant, Keeps;
    var g := s.frames.grants[f];
    if CanInstallGrant(s, f, v, now) {
      var (a, outcome) := Install(s.kids.bindings[g.binding].authority, g.request, now, s.frames.nextFrame);
      InstallAt(s, f, v, now);
      KidsStep(s, SetAuthority(s.kids, g.binding, a));
      DropGrantKeeps(SetAuthority(s.kids, g.binding, a).bindings, s.frames, f, s.frames.nextFrame + 1, GrantReplies(g, outcome));
      FramesStep(s, s.(kids := SetAuthority(s.kids, g.binding, a)), GrantVerified(s, f, v, now).frames);
    } else {
      NothingStep(s);
      DropGrantKeeps(s.kids.bindings, s.frames, f, s.frames.nextFrame, []);
      assert s.frames.grantReplies + [] == s.frames.grantReplies;
      FramesStep(s, s, s.frames.(grants := s.frames.grants - {f}));
    }
  }

  lemma NothingStep(s: Broker)
    requires Inv(s)
    ensures Keeps(s, s)
  {
    hide CallInv, KidInv, FrameInv;
    SameGrows(s);
  }

  lemma SessionStep(s: Broker, e: SessionEvent)
    requires Inv(s) && SessionEnabled(s, e)
    ensures Keeps(s, SessionApply(s, e))
  {
    hide Inv, Keeps, Narrows, AuthorityInv, SetAuthority, GrantAdmit, GrantVerified, Close, Revoke, Expire;
    match e
    case Poison(c) =>
      var b := s.kids.children[c];
      AuthorityAt(s, b);
      CloseNarrows(s.kids.bindings[b].authority);
      AuthorityStep(s, b, Close(s.kids.bindings[b].authority));
    case OwnerRevoke(c, id, session, genuine, now) =>
      var b := s.kids.children[c];
      AuthorityAt(s, b);
      RevokeNarrows(s.kids.bindings[b].authority, id, session, genuine, now);
      AuthorityStep(s, b, Revoke(s.kids.bindings[b].authority, id, session, genuine, now));
    case OwnerGrant(b, m, genuine, now) => AdmitStep(s, b, m, genuine, now);
    case SessionVerified(f, v, now) => VerifiedStep(s, f, v, now);
    case SessionExpires(b, session, now) =>
      var a := s.kids.bindings[b].authority;
      AuthorityAt(s, b);
      ExpireNarrows(a, session, a.sessions[session].expiresAt, now);
      AuthorityStep(s, b, Expire(a, session, a.sessions[session].expiresAt, now));
  }

  // ---------------------------------------------------------------- requests

  lemma RecheckStep(s: Broker, f: int, v: Verification, now: int)
    requires Inv(s) && RequestEnabled(s, RequestIsVerified(f, v, now))
    ensures Keeps(s, RequestApply(s, RequestIsVerified(f, v, now)))
  {
    hide Inv, Keeps, FrameInv, AuthorityInv, SetAuthority, SetCheck, Recheck, Narrows, StillAuthorized;
    var r := s.frames.requests[f];
    var a := Rechecked(s, f, v, now);
    AuthorityAt(s, r.binding);
    RecheckNarrows(s.kids.bindings[r.binding].authority, r.check.session, r.check.grant.expiresAt, v, now);
    AuthorityStep(s, r.binding, a);
    var t := s.(kids := SetAuthority(s.kids, r.binding, a));
    DecideKeeps(t.kids.bindings, s.frames, f, StillAuthorized(s, f, v, now));
    SetCheckGrows(s.frames, f, Decided(StillAuthorized(s, f, v, now)));
    FramesStep(s, t, SetCheck(s.frames, f, Decided(StillAuthorized(s, f, v, now))));
  }

  lemma SetCheckGrows(f: Frames, id: int, check: Check)
    requires id in f.requests
    ensures FramesGrow(f, SetCheck(f, id, check))
  {
  }

  lemma ArriveStep(s: Broker, r: Request)
    requires Inv(s) && r.binding in s.kids.bindings && !r.check.InState?
    ensures Keeps(s, s.(frames := AddRequest(s.frames, r)))
  {
    hide CallInv, KidInv, FrameInv, Keeps;
    NothingStep(s);
    AddRequestKeeps(s.kids.bindings, s.frames, r);
    FramesStep(s, s, AddRequest(s.frames, r));
  }

  /** A request leaves with or without a reply. */
  lemma ReplyStep(s: Broker, f: int, replies: seq<Reply>)
    requires Inv(s) && RequestAt(s, f) && !s.frames.requests[f].check.InState?
    ensures Keeps(s, s.(frames := s.frames.(requests := s.frames.requests - {f}, replies := s.frames.replies + replies)))
  {
    hide CallInv, KidInv, FrameInv, Keeps;
    var g := s.frames.(requests := s.frames.requests - {f});
    NothingStep(s);
    DropRequestKeeps(s.kids.bindings, s.frames, f);
    RepliesKeep(s.kids.bindings, g, s.frames.replies + replies);
    FramesStep(s, s, g.(replies := s.frames.replies + replies));
  }

  lemma InsideStep(s: Broker, k: Kids, f: Frames)
    requires Inv(s) && KidInv(s.calls.ops, k) && KidsGrow(s.kids, k) && FrameInv(k.bindings, f) && FramesGrow(s.frames, f)
    ensures Keeps(s, s.(kids := k, frames := f))
  {
    hide CallInv, KidInv, FrameInv, CallsGrow, KidsGrow;
    CallsStay(s.calls);
  }

  lemma ResumeStep(s: Broker, f: int, fieldOk: bool, cryptoOk: bool, now: int)
    requires Inv(s) && RequestAt(s, f) && s.frames.requests[f].check.Decided?
    ensures Keeps(s, RequestResume(s, f, fieldOk, cryptoOk, now))
  {
    hide Inv, Keeps, Grows, KidInv, KidsGrow, FrameInv, LockCall, SetCheck, AddInFlight, SetBinding;
    var (c, r) := (s.calls, s.frames.requests[f]);
    var rest := s.frames.(requests := s.frames.requests - {f});
    ReplyStep(s, f, []);
    assert s.frames.replies + [] == s.frames.replies;
    var t := s.(frames := rest);
    if !Admissible(c, r, fieldOk) || r.operation == Rewrap {
    } else if r.operation == State {
      EnterKeeps(s, f);
      SetCheckGrows(s.frames, f, InState);
      InsideStep(s, SetBinding(s.kids, r.binding, AddInFlight(s.kids.bindings[r.binding], r.user)), SetCheck(s.frames, f, InState));
    } else if r.user in c.unlocked && !ActiveKey(c, r.user, now) {
      ThenLock(s, t, r.user);
    } else if r.user in c.unlocked && cryptoOk {
      ReplyStep(s, f, [Reply(r.binding, r.user, r.generation, c.unlocked[r.user])]);
    }
  }

  lemma ThenLock(s: Broker, t: Broker, u: UserId)
    requires Keeps(s, t)
    ensures Keeps(s, t.(calls := LockCall(t.calls, u)))
  {
    hide Inv, Grows, LockCall;
    LockStep(t, u);
    GrowsTwice(s, t, t.(calls := LockCall(t.calls, u)));
  }

  lemma LeaveStep(s: Broker, f: int)
    requires Inv(s) && RequestEnabled(s, StateReturns(f))
    ensures Keeps(s, RequestApply(s, StateReturns(f)))
  {
    hide Inv, Keeps, KidInv, KidsGrow, FrameInv, DropInFlight, SetBinding;
    var r := s.frames.requests[f];
    LeaveKeeps(s, f);
    InsideStep(s, SetBinding(s.kids, r.binding, DropInFlight(s.kids.bindings[r.binding], r.user)),
               s.frames.(requests := s.frames.requests - {f}));
  }

  lemma RequestStep(s: Broker, e: RequestEvent)
    requires Inv(s) && RequestEnabled(s, e)
    ensures Keeps(s, RequestApply(s, e))
  {
    hide Inv, Keeps, RequestResume, CheckRequest, AddRequest;
    match e
    case RequestArrives(c, u, generation, operation, authority, genuine, now) =>
      var b := s.kids.children[c];
      var check := CheckRequest(s.kids.bindings[b].authority, u, authority, now);
      NotInside(s.kids.bindings[b].authority, u, authority, now);
      NothingStep(s);
      ArriveStep(s, Request(b, u, generation, operation, check));
    case RequestIsVerified(f, v, now) => RecheckStep(s, f, v, now);
    case RequestResumes(f, fieldOk, cryptoOk, now) => ResumeStep(s, f, fieldOk, cryptoOk, now);
    case StateReturns(f) => LeaveStep(s, f);
  }

  lemma NotInside(a: Authority, u: UserId, session: Option<(SessionId, GrantId)>, now: int)
    ensures !CheckRequest(a, u, session, now).InState?
  {
  }

  // ---------------------------------------------------------------- runs

  lemma Step(s: Broker, e: Event)
    requires Inv(s) && Enabled(s, e)
    ensures Keeps(s, Apply(s, e))
  {
    hide Inv, Keeps, OpApply, ChildApply, SessionApply, RequestApply;
    match e
    case OnOp(o) => OpStep(s, o);
    case OnChild(c) => ChildStep(s, c);
    case OnSession(x) => SessionStep(s, x);
    case OnRequest(r) => RequestStep(s, r);
  }

  lemma InitKids()
    ensures KidInv(map[], Empty.kids) && FrameInv(map[], Empty.frames)
  {
  }

  lemma Start()
    ensures Inv(Empty)
  {
    hide CallInv, KidInv, FrameInv;
    InitCalls();
    InitKids();
  }

  /** Every state of every run satisfies the invariant and follows from every earlier one. */
  lemma {:induction false} RunKeeps(states: seq<Broker>, events: seq<Event>, i: nat, j: nat)
    requires IsRun(states, events) && i <= j < |states|
    ensures Inv(states[i]) && Inv(states[j]) && Grows(states[i], states[j])
    decreases j
  {
    hide Inv, Grows, Enabled, Apply;
    if j == 0 {
      Start();
      SameGrows(Empty);
    } else if i == j {
      RunKeeps(states, events, j - 1, j - 1);
      Step(states[j - 1], events[j - 1]);
      SameGrows(states[j]);
    } else {
      RunKeeps(states, events, i, j - 1);
      Step(states[j - 1], events[j - 1]);
      GrowsTwice(states[i], states[j - 1], states[j]);
    }
  }
}
