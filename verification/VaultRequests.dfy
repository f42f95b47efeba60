/** Who is answered: over every run a request is answered exactly when the child that sent it was
    entitled to ask for its user, and the key could be used. */
module VaultRequests {
  import opened Identifiers
  import opened SessionAuthority
  import opened VaultBarrier
  import opened VaultCalls
  import opened VaultDrains
  import opened VaultSafety
  import opened VaultRuns
  import opened VaultTheorems
  import opened VaultSessions

  // ---------------------------------------------------------------- what a child was attached as

  /** The binding's child, role, verifier and fixed users. */
  predicate SameAttachment(x: Binding, y: Binding) {
    && x.child == y.child && x.authority.role == y.authority.role && x.authority.verifier == y.authority.verifier
    && x.authority.staticUsers == y.authority.staticUsers
  }

  ghost predicate SameKind(a: Authority, c: Authority) {
    c.role == a.role && c.verifier == a.verifier && c.staticUsers == a.staticUsers
  }

  lemma PartsKeepKind(a: Authority, session: SessionId, to: int, now: int, id: RequestId, genuine: bool)
    ensures SameKind(a, Close(a)) && SameKind(a, RemoveGrant(a, session)) && SameKind(a, Tombstone(a, session, to, now))
    ensures SameKind(a, Admit(a, id, genuine, now).0)
  {
    hide Prune, RemoveGrants;
    PruneOnlyExpires(a, now);
    CloseIsKind(a);
    CloseIsKind(Prune(a, now));
    RemoveIsKind(a, session);
  }

  lemma CloseIsKind(a: Authority)
    ensures SameKind(a, Close(a))
  {
  }

  lemma RemoveIsKind(a: Authority, session: SessionId)
    ensures SameKind(a, RemoveGrant(a, session))
  {
  }

  lemma InstallKeepsKind(a: Authority, m: GrantRequest, now: int, newId: GrantId)
    ensures SameKind(a, Install(a, m, now, newId).0)
  {
    hide Prune, RemoveGrants, Close;
    PruneOnlyExpires(a, now);
    CloseIsKind(Prune(a, now));
    RemoveIsKind(Prune(a, now), m.session);
  }

  lemma ChangeKeepsAttachment(a: Authority, change: Change)
    ensures SameKind(a, Changed(a, change))
  {
    hide Prune, Tombstone, RemoveGrant, Admit, Install, Close;
    match change
    case Same =>
    case Closes => CloseIsKind(a);
    case Revokes(id, session, genuine, now) =>
      PartsKeepKind(a, session, 0, now, id, genuine);
      var c := Admit(a, id, genuine, now).0;
      PartsKeepKind(c, session, now + MAX_AUTHORITY_MS, now, id, genuine);
      RemoveIsKind(Tombstone(c, session, now + MAX_AUTHORITY_MS, now), session);
    case Admits(id, genuine, now) => PartsKeepKind(a, 0, 0, now, id, genuine);
    case Installs(m, now, newId) => InstallKeepsKind(a, m, now, newId);
    case Expires(session, to, now) =>
      RemoveIsKind(a, session);
      PartsKeepKind(RemoveGrant(a, session), session, to, now, 0, false);
    case Rechecks(session, to, v, now) =>
      PartsKeepKind(a, session, to, now, 0, false);
      RemoveIsKind(Tombstone(a, session, to, now), session);
  }

  lemma AttachmentStays(s: Broker, e: Event, b: BindingId)
    requires Inv(s) && Enabled(s, e) && b in s.kids.bindings
    ensures b in Apply(s, e).kids.bindings && SameAttachment(s.kids.bindings[b], Apply(s, e).kids.bindings[b])
  {
    hide Inv, Apply, Enabled, Changed;
    ChangeIs(s, e, b);
    ChangeKeepsAttachment(s.kids.bindings[b].authority, ChangeAt(s, e, b));
  }

  /** A binding that is new was made by attaching its child, with exactly these users. */
  lemma NewBindingFrom(s: Broker, e: Event, b: BindingId)
    requires Inv(s) && Enabled(s, e) && b !in s.kids.bindings && b in Apply(s, e).kids.bindings
    ensures e.OnChild? && e.child.CallAttach? && b == s.kids.nextBinding
    ensures var (x, c) := (Apply(s, e).kids.bindings[b], e.child);
            x.child == c.child && x.authority.role == c.role && x.authority.staticUsers == c.users
  {
    hide Inv, OpApply, ChildApply, SessionApply, RequestApply;
    FreshAt(s);
    match e
    case OnOp(o) => OpMakesNone(s, o, b);
    case OnChild(c) => ChildMakes(s.kids, c, b);
    case OnSession(x) => SessionMakesNone(s, x, b);
    case OnRequest(q) => RequestMakesNone(s, q, b);
  }

  lemma OpMakesNone(s: Broker, o: OpEvent, b: BindingId)
    requires OpEnabled(s, o) && b !in s.kids.bindings
    ensures b !in OpApply(s, o).kids.bindings
  {
    hide SectionEnd, Recipients, BarrierComplete;
  }

  lemma ChildMakes(k: Kids, c: ChildEvent, b: BindingId)
    requires ChildEnabled(k, c) && b !in k.bindings && b in ChildApply(k, c).bindings
    ensures c.CallAttach? && b == k.nextBinding
    ensures var x := ChildApply(k, c).bindings[b]; x.child == c.child && x.authority.role == c.role && x.authority.staticUsers == c.users
  {
    hide Close;
  }

  lemma SessionMakesNone(s: Broker, x: SessionEvent, b: BindingId)
    requires SessionEnabled(s, x) && b !in s.kids.bindings
    ensures b !in SessionApply(s, x).kids.bindings
  {
    hide Admit, Install, Revoke, Expire, Close, CanInstallGrant, MayVerify;
  }

  lemma RequestMakesNone(s: Broker, q: RequestEvent, b: BindingId)
    requires RequestEnabled(s, q) && b !in s.kids.bindings
    ensures b !in RequestApply(s, q).kids.bindings
  {
    hide Recheck, LockCall, CheckRequest, StillAuthorized, Admissible, ActiveKey;
  }

  /** The step at which a binding's child was attached. */
  predicate AttachedAt(s: Broker, e: Event, x: Binding) {
    && e.OnChild? && e.child.CallAttach? && e.child.child == x.child && e.child.role == x.authority.role
    && e.child.users == x.authority.staticUsers
  }

  lemma {:induction false} AttachedAs(states: seq<Broker>, events: seq<Event>, i: nat, b: BindingId) returns (k: nat)
    requires IsRun(states, events) && i < |states| && b in states[i].kids.bindings
    ensures k < i && k < |events| && states[k].kids.nextBinding == b && AttachedAt(states[k], events[k], states[i].kids.bindings[b])
  {
    hide Inv, Enabled, Apply, AttachedAt, SameAttachment;
    RunLength(states, events);
    assert i > 0;
    RunStep(states, events, i - 1);
    RunKeeps(states, events, i - 1, i - 1);
    var (s, e) := (states[i - 1], events[i - 1]);
    if b in s.kids.bindings {
      k := AttachedAs(states, events, i - 1, b);
      AttachmentStays(s, e, b);
      SameAttached(states[k], events[k], s.kids.bindings[b], states[i].kids.bindings[b]);
    } else {
      NewBindingFrom(s, e, b);
      k := i - 1;
      NewIsAttached(s, e, states[i].kids.bindings[b]);
    }
  }

  lemma SameAttached(s: Broker, e: Event, x: Binding, y: Binding)
    requires AttachedAt(s, e, x) && SameAttachment(x, y)
    ensures AttachedAt(s, e, y)
  {
  }

  lemma NewIsAttached(s: Broker, e: Event, x: Binding)
    requires e.OnChild? && e.child.CallAttach? && x.child == e.child.child && x.authority.role == e.child.role && x.authority.staticUsers == e.child.users
    ensures AttachedAt(s, e, x)
  {
  }

  // ---------------------------------------------------------------- what a request asked for

  /** Frame `f` is the request that arrives at this step. */
  predicate ArrivesAs(s: Broker, e: Event, f: int) {
    && e.OnRequest? && e.request.RequestArrives? && e.request.genuine && s.frames.nextFrame == f
    && e.request.child in s.kids.children && s.kids.children[e.request.child] in s.kids.bindings
  }

  function Asker(s: Broker, e: Event): Authority
    requires ArrivesAs(s, e, s.frames.nextFrame)
  {
    s.kids.bindings[s.kids.children[e.request.child]].authority
  }

  /** The named session has this grant for the user, unexpired and not tombstoned. */
  predicate Holds(a: Authority, u: UserId, session: SessionId, grantId: GrantId, now: int) {
    && a.role == Api && !a.closed && a.verifier && session in a.sessions && session !in a.tombstones
    && a.sessions[session].owner == u && a.sessions[session].grantId == grantId && a.sessions[session].expiresAt > now
  }

  /** The lookup of this request's session answers active, and the very same grant is still held, by an
      open and registered binding. */
  predicate ConfirmedAt(s: Broker, e: Event, f: int, b: BindingId, session: SessionId, g: Grant) {
    && e.OnRequest? && e.request.RequestIsVerified? && e.request.frame == f && e.request.verification == Active
    && b in s.kids.bindings && Registered(s.kids.children, b, s.kids.bindings[b])
    && var a := s.kids.bindings[b].authority;
       !a.closed && session in a.sessions && a.sessions[session] == g && g.expiresAt > e.request.now
  }

  /** The child was entitled to ask for the user: as one of its fixed users, or by a grant that it held when
      it asked and that was confirmed afterwards. */
  ghost predicate Entitled(states: seq<Broker>, events: seq<Event>, k: nat, i: nat, f: int)
    requires k < i <= |events| < |states| && ArrivesAs(states[k], events[k], f)
  {
    var (q, a) := (events[k].request, Asker(states[k], events[k]));
    match q.authority
    case None => q.user in a.staticUsers
    case Some(named) =>
      && Holds(a, q.user, named.0, named.1, q.now)
      && exists l | k < l < i :: ConfirmedAt(states[l], events[l], f, states[k].kids.children[q.child], named.0, a.sessions[named.0])
  }

  /** The request of frame `f` as it arrived. */
  predicate IsThat(s: Broker, e: Event, f: int, r: Request)
    requires ArrivesAs(s, e, f)
  {
    && r.binding == s.kids.children[e.request.child] && r.user == e.request.user && r.generation == e.request.generation
    && r.operation == e.request.operation
  }

  /** No lookup has answered for the frame. */
  ghost predicate Unanswered(events: seq<Event>, k: nat, i: nat, f: int)
    requires i <= |events|
  {
    forall l | k < l < i :: !(events[l].OnRequest? && events[l].request.RequestIsVerified? && events[l].request.frame == f)
  }

  /** How far the check of a request has come, and that it is right. */
  ghost predicate Tracked(states: seq<Broker>, events: seq<Event>, k: nat, i: nat, f: int, r: Request)
    requires k < i <= |events| < |states| && ArrivesAs(states[k], events[k], f)
  {
    var (q, a) := (events[k].request, Asker(states[k], events[k]));
    && IsThat(states[k], events[k], f, r)
    && match r.check
       case Verifying(session, g) =>
         && q.authority == Some((session, g.grantId)) && Holds(a, q.user, session, g.grantId, q.now) && a.sessions[session] == g
         && Unanswered(events, k, i, f)
       case Decided(authorized) => authorized <==> Entitled(states, events, k, i, f)
       case InState => Entitled(states, events, k, i, f)
  }

  // ---------------------------------------------------------------- tracking

  lemma ArrivalTracks(states: seq<Broker>, events: seq<Event>, k: nat, f: int)
    requires IsRun(states, events) && k < |events| && f !in states[k].frames.requests && f in states[k + 1].frames.requests
    ensures |states| == |events| + 1 && ArrivesAs(states[k], events[k], f)
    ensures Tracked(states, events, k, k + 1, f, states[k + 1].frames.requests[f])
  {
    hide IsRun;
    RunStep(states, events, k);
    OnlyArrivals(states[k], events[k], f);
  }

  lemma OnlyArrivals(s: Broker, e: Event, f: int)
    requires Enabled(s, e) && f !in s.frames.requests && f in Apply(s, e).frames.requests
    ensures ArrivesAs(s, e, f)
  {
    hide OpApply, ChildApply, Admit, Install, CanInstallGrant, CheckRequest, LockCall, Admissible, ActiveKey, StillAuthorized, MayVerify;
    match e
    case OnOp(o) => OpRepliesNothing(s, o);
    case OnChild(c) =>
    case OnSession(x) =>
    case OnRequest(q) =>
  }

  /** A frame that stays changes only by its own events. */
  lemma OthersStay(s: Broker, e: Event, f: int)
    requires Enabled(s, e) && f in s.frames.requests && f in Apply(s, e).frames.requests && s.frames.nextFrame > f
    requires !(e.OnRequest? && !e.request.RequestArrives? && e.request.frame == f)
    ensures Apply(s, e).frames.requests[f] == s.frames.requests[f]
  {
    hide OpApply, ChildApply, Admit, Install, CanInstallGrant, CheckRequest, LockCall, Admissible, ActiveKey, StillAuthorized, MayVerify;
    match e
    case OnOp(o) => OpRepliesNothing(s, o);
    case OnChild(c) =>
    case OnSession(x) =>
    case OnRequest(q) =>
  }

  lemma FrameIsOld(s: Broker, f: int)
    requires Inv(s) && f in s.frames.requests
    ensures f < s.frames.nextFrame && RequestAt(s, f)
  {
    hide CallInv, KidInv;
  }

  /** An event about another frame leaves the tracking as it was. */
  lemma TrackedOn(states: seq<Broker>, events: seq<Event>, k: nat, i: nat, f: int, r: Request)
    requires k < i < |events| < |states| && ArrivesAs(states[k], events[k], f) && Tracked(states, events, k, i, f, r)
    requires !(events[i].OnRequest? && events[i].request.RequestIsVerified? && events[i].request.frame == f)
    ensures Tracked(states, events, k, i + 1, f, r)
  {
    hide Holds, Asker, IsThat;
    var q := events[k].request;
    if q.authority.Some? {
      var (named, a) := (q.authority.value, Asker(states[k], events[k]));
      if Holds(a, q.user, named.0, named.1, q.now) { EntitledOn(states, events, k, i, f); }
    }
  }

  lemma EntitledOn(states: seq<Broker>, events: seq<Event>, k: nat, i: nat, f: int)
    requires k < i < |events| < |states| && ArrivesAs(states[k], events[k], f)
    requires !(events[i].OnRequest? && events[i].request.RequestIsVerified? && events[i].request.frame == f)
    ensures Entitled(states, events, k, i + 1, f) <==> Entitled(states, events, k, i, f)
  {
  }

  /** The lookup answers. */
  lemma VerifiedTracks(states: seq<Broker>, events: seq<Event>, k: nat, i: nat, f: int)
    requires IsRun(states, events) && k < i < |events| && f in states[i].frames.requests && ArrivesAs(states[k], events[k], f)
    requires Inv(states[i]) && |states| == |events| + 1 && Tracked(states, events, k, i, f, states[i].frames.requests[f])
    requires events[i].OnRequest? && events[i].request.RequestIsVerified? && events[i].request.frame == f
    ensures f in states[i + 1].frames.requests && Tracked(states, events, k, i + 1, f, states[i + 1].frames.requests[f])
  {
    hide IsRun, Inv, Recheck, Asker, Holds;
    RunStep(states, events, i);
    var r := states[i].frames.requests[f];
    var (session, g, b) := (r.check.session, r.check.grant, r.binding);
    assert states[i + 1].frames.requests[f] == r.(check := Decided(StillAuthorized(states[i], f, events[i].request.verification, events[i].request.now)));
    assert StillAuthorized(states[i], f, events[i].request.verification, events[i].request.now) <==> ConfirmedAt(states[i], events[i], f, b, session, g);
    NoneConfirmed(states, events, k, i, f, b, session, g);
  }

  lemma NoneConfirmed(states: seq<Broker>, events: seq<Event>, k: nat, i: nat, f: int, b: BindingId, session: SessionId, g: Grant)
    requires k < i < |events| < |states| && Unanswered(events, k, i, f)
    ensures (exists l | k < l < i + 1 :: ConfirmedAt(states[l], events[l], f, b, session, g)) <==> ConfirmedAt(states[i], events[i], f, b, session, g)
  {
  }

  /** It is let into `state`. */
  lemma ResumedTracks(states: seq<Broker>, events: seq<Event>, k: nat, i: nat, f: int)
    requires IsRun(states, events) && k < i < |events| && f in states[i].frames.requests && ArrivesAs(states[k], events[k], f)
    requires |states| == |events| + 1 && Tracked(states, events, k, i, f, states[i].frames.requests[f])
    requires events[i].OnRequest? && events[i].request.RequestResumes? && events[i].request.frame == f && f in states[i + 1].frames.requests
    ensures Tracked(states, events, k, i + 1, f, states[i + 1].frames.requests[f])
  {
    hide IsRun, Holds, Asker, LockCall, AddInFlight, Entitled;
    RunStep(states, events, i);
    TrackedOn(states, events, k, i, f, states[i].frames.requests[f]);
  }

  lemma {:induction false} History(states: seq<Broker>, events: seq<Event>, i: nat, f: int) returns (k: nat)
    requires IsRun(states, events) && i < |states| && f in states[i].frames.requests
    ensures k < i <= |events| < |states| && ArrivesAs(states[k], events[k], f)
    ensures Tracked(states, events, k, i, f, states[i].frames.requests[f])
  {
    hide Inv, Enabled, Apply, ArrivesAs, Tracked;
    RunLength(states, events);
    assert i > 0;
    RunStep(states, events, i - 1);
    RunKeeps(states, events, i - 1, i - 1);
    var (s, e) := (states[i - 1], events[i - 1]);
    if f !in s.frames.requests {
      k := i - 1;
      ArrivalTracks(states, events, k, f);
    } else {
      k := History(states, events, i - 1, f);
      FrameIsOld(s, f);
      if e.OnRequest? && e.request.RequestIsVerified? && e.request.frame == f {
        VerifiedTracks(states, events, k, i - 1, f);
      } else if e.OnRequest? && e.request.RequestResumes? && e.request.frame == f {
        ResumedTracks(states, events, k, i - 1, f);
      } else {
        if e.OnRequest? && e.request.StateReturns? && e.request.frame == f { LeavesState(s, f); }
        OthersStay(s, e, f);
        TrackedOn(states, events, k, i - 1, f, s.frames.requests[f]);
      }
    }
  }

  lemma LeavesState(s: Broker, f: int)
    requires Enabled(s, OnRequest(StateReturns(f)))
    ensures f !in Apply(s, OnRequest(StateReturns(f))).frames.requests
  {
  }

  // ---------------------------------------------------------------- theorems

  /** Nothing is pending for the user, and the request asked under the current generation. */
  ghost predicate Timely(c: Calls, q: RequestEvent)
    requires q.RequestArrives?
  {
    Pending(c.ops, q.user) == {} && q.generation == Get(c.generations, q.user)
  }

  predicate HasKey(c: Calls, u: UserId, now: int) { u in c.unlocked && c.unlocked[u].expiresAt > now }

  predicate KeyExpired(c: Calls, u: UserId, now: int) { u in c.unlocked && c.unlocked[u].expiresAt <= now }

  /** At step `i` the request that arrived as frame `f` at step `k` is answered if and only if its child was
      entitled to ask for its user, it is timely, names an allowed field, and the user has an unexpired
      key; and under that very key. It is let into `state` if and only if it is entitled and timely. One that
      meets an expired key locks its user instead, and nothing else does. */
  ghost predicate AnsweredRightly(states: seq<Broker>, events: seq<Event>, k: nat, i: nat, f: int, fieldOk: bool, cryptoOk: bool, now: int) {
    && k < i < |events| < |states| && ArrivesAs(states[k], events[k], f)
    && var (s, t, q) := (states[i], states[i + 1], events[k].request);
       var may := fieldOk && Timely(s.calls, q) && Entitled(states, events, k, i, f);
       && (if may && cryptoOk && (q.operation == Encrypt || q.operation == Decrypt) && HasKey(s.calls, q.user, now)
           then t.frames.replies
                == s.frames.replies + [Reply(states[k].kids.children[q.child], q.user, q.generation, s.calls.unlocked[q.user])]
           else t.frames.replies == s.frames.replies)
       && (f in t.frames.requests <==> may && q.operation == State)
       && t.calls == if may && (q.operation == Encrypt || q.operation == Decrypt) && KeyExpired(s.calls, q.user, now)
                     then LockCall(s.calls, q.user) else s.calls
  }

  /** So it is over every run. */
  lemma AnsweredExactlyWhen(states: seq<Broker>, events: seq<Event>, i: nat, f: int, fieldOk: bool, cryptoOk: bool, now: int) returns (k: nat)
    requires IsRun(states, events) && i < |events| && events[i] == OnRequest(RequestResumes(f, fieldOk, cryptoOk, now))
    ensures AnsweredRightly(states, events, k, i, f, fieldOk, cryptoOk, now)
  {
    hide IsRun, Inv, Entitled, Pending, Apply;
    RunStep(states, events, i);
    RunKeeps(states, events, i, i);
    k := History(states, events, i, f);
    var (s, r) := (states[i], states[i].frames.requests[f]);
    PendingIsDepth(s, r.user);
    ResumeReplies(s, f, fieldOk, cryptoOk, now);
  }

  lemma ResumeReplies(s: Broker, f: int, fieldOk: bool, cryptoOk: bool, now: int)
    requires RequestEnabled(s, RequestResumes(f, fieldOk, cryptoOk, now))
    ensures var (t, r, c) := (Apply(s, OnRequest(RequestResumes(f, fieldOk, cryptoOk, now))), s.frames.requests[f], s.calls);
            var may := fieldOk && r.check.Decided? && r.check.authorized && Get(c.depth, r.user) == 0 && r.generation == Get(c.generations, r.user);
            && (if may && cryptoOk && (r.operation == Encrypt || r.operation == Decrypt) && HasKey(c, r.user, now)
                then t.frames.replies == s.frames.replies + [Reply(r.binding, r.user, r.generation, c.unlocked[r.user])]
                else t.frames.replies == s.frames.replies)
            && (f in t.frames.requests <==> may && r.operation == State)
            && t.calls == if may && (r.operation == Encrypt || r.operation == Decrypt) && KeyExpired(c, r.user, now) then LockCall(c, r.user) else c
  {
    hide LockCall, AddInFlight;
  }

  /** A lookup of the session on which the entitlement rests. */
  ghost predicate ByGrant(states: seq<Broker>, events: seq<Event>, k: nat, i: nat, f: int)
    requires k < i <= |events| < |states| && ArrivesAs(states[k], events[k], f)
  {
    var (q, a) := (events[k].request, Asker(states[k], events[k]));
    && q.authority.Some? && Holds(a, q.user, q.authority.value.0, q.authority.value.1, q.now)
    && exists l | k < l < i ::
         ConfirmedAt(states[l], events[l], f, states[k].kids.children[q.child], q.authority.value.0, a.sessions[q.authority.value.0])
  }

  /** So for every reply of every run there is the request it answers, which arrived before at the reply's
      binding for the reply's user and generation. Either it named no session, and the user is one of
      those the child was attached with, or it named a session whose unexpired grant for the user was held
      then, and was confirmed afterwards while it was still held by the open, registered binding. */
  lemma ReplyIsEntitled(states: seq<Broker>, events: seq<Event>, i: nat, r: Reply) returns (f: int, k: nat, j: nat)
    requires IsRun(states, events) && i < |events| && Replies(states[i], states[i + 1], r)
    ensures j < k < i < |events| < |states| && ArrivesAs(states[k], events[k], f) && events[k].request.genuine
    ensures var (s, q) := (states[k], events[k].request);
            && s.kids.children[q.child] == r.binding && q.user == r.user && q.generation == r.generation
            && (q.operation == Encrypt || q.operation == Decrypt)
            && states[j].kids.nextBinding == r.binding && AttachedAt(states[j], events[j], s.kids.bindings[r.binding])
            && (if q.authority == None then r.user in events[j].child.users else ByGrant(states, events, k, i, f))
  {
    hide IsRun, Inv, Apply, Enabled, Holds, Pending;
    RunStep(states, events, i);
    ReplyFrom(states[i], events[i], r);
    var e := events[i].request;
    f := e.frame;
    k := AnsweredExactlyWhen(states, events, i, f, e.fieldOk, e.cryptoOk, e.now);
    var (s, t, q) := (states[i], states[i + 1], events[k].request);
    assert |t.frames.replies| == |s.frames.replies| + 1 && t.frames.replies[|s.frames.replies|] == r;
    j := AttachedAs(states, events, k, r.binding);
  }
}
