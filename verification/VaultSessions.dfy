/** What becomes of grants, tombstones and remembered request ids over runs: how long a revocation and
    a request id last, and what alone takes a grant away or closes a binding's authority. */
module VaultSessions {
  import opened Identifiers
  import opened SessionAuthority
  import opened VaultBarrier
  import opened VaultCalls
  import opened VaultDrains
  import opened VaultSafety
  import opened VaultRuns
  import opened VaultTheorems

  // ---------------------------------------------------------------- clocks

  /** The time an event reads, if it reads one. */
  function Clock(e: Event): Option<int> {
    match e
    case OnOp(_) => None
    case OnChild(_) => None
    case OnSession(x) => (match x
      case Poison(_) => None
      case OwnerRevoke(_, _, _, _, now) => Some(now)
      case OwnerGrant(_, _, _, now) => Some(now)
      case SessionVerified(_, _, now) => Some(now)
      case SessionExpires(_, _, now) => Some(now))
    case OnRequest(q) => (match q
      case RequestArrives(_, _, _, _, _, _, now) => Some(now)
      case RequestIsVerified(_, _, now) => Some(now)
      case RequestResumes(_, _, _, now) => Some(now)
      case StateReturns(_) => None)
  }

  /** The event does not read a time outside this interval. */
  predicate Within(e: Event, from: int, until: int) { Clock(e).Some? ==> from <= Clock(e).value < until }

  // ---------------------------------------------------------------- bars

  /** No grant for the session can be held, and none installed, until this time. */
  ghost predicate Barred(a: Authority, session: SessionId, until: int) {
    a.closed || (session in a.tombstones && a.tombstones[session] >= until)
  }

  /** No message with this request id is admitted until this time. */
  ghost predicate Remembered(a: Authority, id: RequestId, until: int) {
    a.closed || (id in a.requestIds && a.requestIds[id] >= until)
  }

  ghost predicate KeepsBar(a: Authority, c: Authority, session: SessionId, until: int) {
    Barred(a, session, until) ==> Barred(c, session, until)
  }

  ghost predicate KeepsIds(a: Authority, c: Authority, until: int) {
    forall id | Remembered(a, id, until) :: Remembered(c, id, until)
  }

  lemma PruneStays(a: Authority, now: int, until: int)
    requires now < until
    ensures KeepsIds(a, Prune(a, now), until) && forall session :: KeepsBar(a, Prune(a, now), session, until)
  {
  }

  /** A new tombstone shortens a bar only if it is for the same session and ends earlier. */
  lemma TombstoneStays(a: Authority, other: SessionId, to: int, now: int, session: SessionId, until: int)
    requires now < until
    ensures KeepsIds(a, Tombstone(a, other, to, now), until)
    ensures other != session || to >= until ==> KeepsBar(a, Tombstone(a, other, to, now), session, until)
  {
    hide Prune;
    PruneStays(a, now, until);
    assert KeepsBar(a, Prune(a, now), session, until);
  }

  lemma RemoveStays(a: Authority, other: SessionId, until: int)
    ensures KeepsIds(a, RemoveGrant(a, other), until) && forall session :: KeepsBar(a, RemoveGrant(a, other), session, until)
  {
  }

  lemma AdmitStays(a: Authority, id: RequestId, genuine: bool, now: int, session: SessionId, until: int)
    requires now < until
    ensures KeepsIds(a, Admit(a, id, genuine, now).0, until) && KeepsBar(a, Admit(a, id, genuine, now).0, session, until)
  {
    hide Prune;
    PruneStays(a, now, until);
    assert KeepsBar(a, Prune(a, now), session, until);
  }

  // ---------------------------------------------------------------- what an event does to one authority

  /** The change an event makes to a binding's authority. */
  datatype Change =
    | Same | Closes
    | Revokes(id: RequestId, session: SessionId, genuine: bool, now: int)
    | Admits(id: RequestId, genuine: bool, now: int)
    | Installs(m: GrantRequest, now: int, newId: GrantId)
    | Expires(session: SessionId, to: int, now: int)
    | Rechecks(session: SessionId, to: int, v: Verification, now: int)

  function Changed(a: Authority, change: Change): Authority {
    match change
    case Same => a
    case Closes => Close(a)
    case Revokes(id, session, genuine, now) => Revoke(a, id, session, genuine, now)
    case Admits(id, genuine, now) => Admit(a, id, genuine, now).0
    case Installs(m, now, newId) => Install(a, m, now, newId).0
    case Expires(session, to, now) => Expire(a, session, to, now)
    case Rechecks(session, to, v, now) => Recheck(a, session, to, v, now)
  }

  /** The child that `b` belongs to sent it. */
  predicate From(k: Kids, c: Child, b: BindingId) { c in k.children && k.children[c] == b }

  function SessionChange(s: Broker, x: SessionEvent, b: BindingId): Change
    requires SessionEnabled(s, x)
  {
    match x
    case Poison(c) => if From(s.kids, c, b) then Closes else Same
    case OwnerRevoke(c, id, session, genuine, now) => if From(s.kids, c, b) then Revokes(id, session, genuine, now) else Same
    case OwnerGrant(d, m, genuine, now) => if d == b then Admits(m.requestId, genuine, now) else Same
    case SessionVerified(f, v, now) =>
      if s.frames.grants[f].binding == b && CanInstallGrant(s, f, v, now)
      then Installs(s.frames.grants[f].request, now, s.frames.nextFrame) else Same
    case SessionExpires(d, session, now) =>
      if d == b then Expires(session, s.kids.bindings[b].authority.sessions[session].expiresAt, now) else Same
  }

  function ChangeAt(s: Broker, e: Event, b: BindingId): Change
    requires Enabled(s, e) && b in s.kids.bindings
  {
    match e
    case OnOp(_) => Same
    case OnChild(c) =>
      var k := ChildApply(s.kids, c);
      if Registered(s.kids.children, b, s.kids.bindings[b]) && !(b in k.bindings && Registered(k.children, b, k.bindings[b])) then Closes else Same
    case OnSession(x) => SessionChange(s, x, b)
    case OnRequest(q) =>
      if q.RequestIsVerified? && s.frames.requests[q.frame].binding == b
      then var check := s.frames.requests[q.frame].check; Rechecks(check.session, check.grant.expiresAt, q.verification, q.now)
      else Same
  }

  ghost predicate ChangesBy(s: Broker, t: Broker, b: BindingId, change: Change)
    requires b in s.kids.bindings
  {
    && b in t.kids.bindings && t.kids.bindings[b].child == s.kids.bindings[b].child
    && t.kids.bindings[b].authority == Changed(s.kids.bindings[b].authority, change)
  }

  lemma ChangeIs(s: Broker, e: Event, b: BindingId)
    requires Inv(s) && Enabled(s, e) && b in s.kids.bindings
    ensures ChangesBy(s, Apply(s, e), b, ChangeAt(s, e, b))
  {
    hide Inv, OpApply, ChildApply, SessionApply, RequestApply, Close, Revoke, Admit, Install, Expire, Recheck, SessionChange;
    match e
    case OnOp(o) => OpChanges(s, o, b);
    case OnChild(c) => ChildChanges(s, c, b);
    case OnSession(x) => SessionChanges(s, x, b);
    case OnRequest(q) => RequestChanges(s, q, b);
  }

  lemma OpChanges(s: Broker, o: OpEvent, b: BindingId)
    requires OpEnabled(s, o) && b in s.kids.bindings
    ensures ChangesBy(s, OpApply(s, o), b, Same)
  {
    hide SectionEnd, Recipients, BarrierComplete;
  }

  lemma ReleaseChanges(k: Kids, d: BindingId, b: BindingId)
    requires d in k.bindings && b in k.bindings
    ensures var r := Release(k, d);
            && r.bindings.Keys == k.bindings.Keys && r.bindings[b].child == k.bindings[b].child
            && r.bindings[b].authority
               == (if b == d && Registered(k.children, b, k.bindings[b]) then Close(k.bindings[b].authority) else k.bindings[b].authority)
            && (b != d && Registered(k.children, b, k.bindings[b]) ==> Registered(r.children, b, r.bindings[b]))
            && (b == d ==> !Registered(r.children, b, r.bindings[b]))
  {
    hide Close;
  }

  lemma ChildChanges(s: Broker, c: ChildEvent, b: BindingId)
    requires Inv(s) && ChildEnabled(s.kids, c) && b in s.kids.bindings
    ensures ChangesBy(s, s.(kids := ChildApply(s.kids, c)), b, ChangeAt(s, OnChild(c), b))
  {
    hide Inv, Release, Close, GoodBinding;
    GoodAt(s, b);
    FreshAt(s);
    match c
    case AckArrives(_, lockId, _, _, _) =>
    case ExitIsProven(id, d) => ReleaseChanges(s.kids, d, b);
    case ExitIsObserved(child) => ReleaseChanges(s.kids, s.kids.children[child], b);
    case CallAttach(_, _, _, _, _) =>
    case ValidatorsLoad(d, _, _) => ReleaseChanges(s.kids, d, b);
    case DeliveryEnds(d, _, _, _) => ReleaseChanges(s.kids, d, b);
    case _ =>
  }

  lemma FreshAt(s: Broker)
    requires Inv(s)
    ensures s.kids.nextBinding !in s.kids.bindings
  {
    hide CallInv, FrameInv, KidInv;
    NewBinding(s.calls.ops, s.kids);
  }

  lemma SessionChanges(s: Broker, x: SessionEvent, b: BindingId)
    requires SessionEnabled(s, x) && b in s.kids.bindings
    ensures ChangesBy(s, SessionApply(s, x), b, SessionChange(s, x, b))
  {
    hide Close, Revoke, Admit, Install, Expire, CanInstallGrant, MayVerify;
  }

  lemma RequestChanges(s: Broker, q: RequestEvent, b: BindingId)
    requires RequestEnabled(s, q) && b in s.kids.bindings
    ensures ChangesBy(s, RequestApply(s, q), b, ChangeAt(s, OnRequest(q), b))
  {
    hide Recheck, StillAuthorized, CheckRequest, LockCall, Admissible, ActiveKey;
  }

  // ---------------------------------------------------------------- how long a bar lasts

  /** The change would replace a tombstone of the session by one that ends before this time. */
  predicate Shortens(change: Change, session: SessionId, until: int) {
    change.Rechecks? && change.session == session && change.v == Inactive && change.to < until
  }

  /** The clock of a change, if it reads one. */
  predicate ChangeWithin(change: Change, from: int, until: int) {
    match change
    case Same => true
    case Closes => true
    case Revokes(_, _, _, now) => from <= now < until
    case Admits(_, _, now) => from <= now < until
    case Installs(_, now, _) => from <= now < until
    case Expires(_, _, now) => from <= now < until
    case Rechecks(_, _, _, now) => from <= now < until
  }

  lemma ChangeStays(a: Authority, change: Change, session: SessionId, until: int)
    requires AuthorityInv(a) && ChangeWithin(change, until - MAX_AUTHORITY_MS, until)
    requires change.Expires? ==> change.session in a.sessions
    ensures KeepsIds(a, Changed(a, change), until)
    ensures !Shortens(change, session, until) ==> KeepsBar(a, Changed(a, change), session, until)
  {
    hide KeepsIds, KeepsBar, Prune, Tombstone, RemoveGrant, Admit;
    match change
    case Same => SameStays(a, session, until);
    case Closes => CloseStays(a, session, until);
    case Revokes(id, other, genuine, now) => RevokeStays(a, id, other, genuine, now, session, until);
    case Admits(id, genuine, now) => AdmitStays(a, id, genuine, now, session, until);
    case Installs(m, now, newId) => InstallStays(a, m, now, newId, session, until);
    case Expires(other, to, now) => ExpireStays(a, other, to, now, session, until);
    case Rechecks(other, to, v, now) => RecheckStays(a, other, to, v, now, session, until);
  }

  lemma SameStays(a: Authority, session: SessionId, until: int)
    ensures KeepsIds(a, a, until) && KeepsBar(a, a, session, until)
  {
  }

  lemma CloseStays(a: Authority, session: SessionId, until: int)
    ensures KeepsIds(a, Close(a), until) && KeepsBar(a, Close(a), session, until)
  {
  }

  lemma KeepsTwice(a: Authority, c: Authority, d: Authority, session: SessionId, until: int)
    ensures KeepsIds(a, c, until) && KeepsIds(c, d, until) ==> KeepsIds(a, d, until)
    ensures KeepsBar(a, c, session, until) && KeepsBar(c, d, session, until) ==> KeepsBar(a, d, session, until)
  {
  }

  lemma RevokeStays(a: Authority, id: RequestId, other: SessionId, genuine: bool, now: int, session: SessionId, until: int)
    requires now < until <= now + MAX_AUTHORITY_MS
    ensures KeepsIds(a, Revoke(a, id, other, genuine, now), until) && KeepsBar(a, Revoke(a, id, other, genuine, now), session, until)
  {
    hide Admit, Tombstone, RemoveGrant, KeepsIds, KeepsBar;
    var (b, ok) := Admit(a, id, genuine, now);
    AdmitStays(a, id, genuine, now, session, until);
    if ok {
      var t := Tombstone(b, other, now + MAX_AUTHORITY_MS, now);
      TombstoneStays(b, other, now + MAX_AUTHORITY_MS, now, session, until);
      RemoveStays(t, other, until);
      KeepsTwice(b, t, RemoveGrant(t, other), session, until);
      KeepsTwice(a, b, RemoveGrant(t, other), session, until);
    }
  }

  lemma InstallStays(a: Authority, m: GrantRequest, now: int, newId: GrantId, session: SessionId, until: int)
    requires now < until
    ensures KeepsIds(a, Install(a, m, now, newId).0, until) && KeepsBar(a, Install(a, m, now, newId).0, session, until)
  {
    hide Prune;
    PruneStays(a, now, until);
    assert KeepsBar(a, Prune(a, now), session, until);
  }

  /** The expiry timer of a grant that is held, whose session therefore is not barred. */
  lemma ExpireStays(a: Authority, other: SessionId, to: int, now: int, session: SessionId, until: int)
    requires AuthorityInv(a) && other in a.sessions && now < until
    ensures KeepsIds(a, Expire(a, other, to, now), until) && KeepsBar(a, Expire(a, other, to, now), session, until)
  {
    hide Tombstone, Prune, KeepsIds;
    var r := RemoveGrant(a, other);
    RemoveStays(a, other, until);
    TombstoneStays(r, other, to, now, session, until);
    KeepsTwice(a, r, Tombstone(r, other, to, now), session, until);
    assert !Barred(a, other, until);
  }

  lemma RecheckStays(a: Authority, other: SessionId, to: int, v: Verification, now: int, session: SessionId, until: int)
    requires now < until
    ensures KeepsIds(a, Recheck(a, other, to, v, now), until)
    ensures v != Inactive || other != session || to >= until ==> KeepsBar(a, Recheck(a, other, to, v, now), session, until)
  {
    hide Tombstone, RemoveGrant, KeepsIds, KeepsBar;
    RemoveStays(a, other, until);
    SameStays(a, session, until);
    if v == Inactive {
      var t := Tombstone(a, other, to, now);
      TombstoneStays(a, other, to, now, session, until);
      RemoveStays(t, other, until);
      KeepsTwice(a, t, RemoveGrant(t, other), session, until);
    }
  }

  // ---------------------------------------------------------------- bars over runs

  /** A lookup of the session, begun while it had a grant that ends before this time, answers inactive. */
  predicate ShortensAt(s: Broker, e: Event, b: BindingId, session: SessionId, until: int) {
    e.OnRequest? && e.request.RequestIsVerified? && e.request.verification == Inactive && LookupAt(s, e.request.frame, b, session, until)
  }

  predicate LookupAt(s: Broker, f: int, b: BindingId, session: SessionId, until: int) {
    && f in s.frames.requests && s.frames.requests[f].binding == b
    && var check := s.frames.requests[f].check;
       check.Verifying? && check.session == session && check.grant.expiresAt < until
  }

  lemma BarStep(s: Broker, e: Event, b: BindingId, session: SessionId, until: int)
    requires Inv(s) && Enabled(s, e) && b in s.kids.bindings && Within(e, until - MAX_AUTHORITY_MS, until)
    ensures var t := Apply(s, e);
            && b in t.kids.bindings
            && KeepsIds(s.kids.bindings[b].authority, t.kids.bindings[b].authority, until)
            && (!ShortensAt(s, e, b, session, until) ==> KeepsBar(s.kids.bindings[b].authority, t.kids.bindings[b].authority, session, until))
  {
    hide Inv, Apply, Changed, KeepsIds, KeepsBar, AuthorityInv, CanInstallGrant;
    ChangeIs(s, e, b);
    AuthorityAt(s, b);
    ChangeStays(s.kids.bindings[b].authority, ChangeAt(s, e, b), session, until);
  }

  lemma {:induction false} BarHolds(states: seq<Broker>, events: seq<Event>, i: nat, j: nat, b: BindingId, session: SessionId, until: int)
    requires IsRun(states, events) && i <= j < |states| && b in states[i].kids.bindings
    requires Barred(states[i].kids.bindings[b].authority, session, until)
    requires forall k | i <= k < j :: Within(events[k], until - MAX_AUTHORITY_MS, until) && !ShortensAt(states[k], events[k], b, session, until)
    ensures b in states[j].kids.bindings && Barred(states[j].kids.bindings[b].authority, session, until)
    ensures session !in states[j].kids.bindings[b].authority.sessions
  {
    hide IsRun, Inv, Barred, Within, ShortensAt, Enabled, Apply;
    RunLength(states, events);
    RunKeeps(states, events, j, j);
    if i < j {
      BarHolds(states, events, i, j - 1, b, session, until);
      RunStep(states, events, j - 1);
      RunKeeps(states, events, j - 1, j - 1);
      BarStep(states[j - 1], events[j - 1], b, session, until);
    }
    AuthorityAt(states[j], b);
    BarredHasNone(states[j].kids.bindings[b].authority, session, until);
  }

  lemma BarredHasNone(a: Authority, session: SessionId, until: int)
    requires AuthorityInv(a) && Barred(a, session, until)
    ensures session !in a.sessions
  {
  }

  lemma {:induction false} IdHolds(states: seq<Broker>, events: seq<Event>, i: nat, j: nat, b: BindingId, id: RequestId, until: int)
    requires IsRun(states, events) && i <= j < |states| && b in states[i].kids.bindings
    requires Remembered(states[i].kids.bindings[b].authority, id, until)
    requires forall k | i <= k < j :: Within(events[k], until - MAX_AUTHORITY_MS, until)
    ensures b in states[j].kids.bindings && Remembered(states[j].kids.bindings[b].authority, id, until)
  {
    hide IsRun, Inv, Remembered, Within, ShortensAt, Enabled, Apply;
    RunLength(states, events);
    if i < j {
      IdHolds(states, events, i, j - 1, b, id, until);
      RunStep(states, events, j - 1);
      RunKeeps(states, events, j - 1, j - 1);
      BarStep(states[j - 1], events[j - 1], b, 0, until);
    }
  }

  // ---------------------------------------------------------------- messages

  /** An authentic message to open authority, under an id not used within its time. */
  predicate IsNew(a: Authority, id: RequestId, genuine: bool, now: int) {
    !a.closed && a.role == Api && genuine && (id in a.requestIds ==> a.requestIds[id] <= now)
  }

  /** The revocation of a session by the child of `b`. */
  predicate RevokesAt(s: Broker, e: Event, b: BindingId, id: RequestId, session: SessionId, now: int) {
    && e.OnSession? && e.session.OwnerRevoke?
    && e == OnSession(OwnerRevoke(e.session.child, id, session, e.session.genuine, now))
    && From(s.kids, e.session.child, b) && b in s.kids.bindings
    && IsNew(s.kids.bindings[b].authority, id, e.session.genuine, now)
  }

  lemma NewRevokeBars(a: Authority, id: RequestId, session: SessionId, genuine: bool, now: int)
    requires IsNew(a, id, genuine, now)
    ensures var c := Revoke(a, id, session, genuine, now);
            Barred(c, session, now + MAX_AUTHORITY_MS) && Remembered(c, id, now + MAX_AUTHORITY_MS)
  {
    hide Prune, RemoveGrants;
    RemembersNew(a, id, genuine, now);
    var (c, ok) := Admit(a, id, genuine, now);
    if ok {
      var (t, until) := (Tombstone(c, session, now + MAX_AUTHORITY_MS, now), now + MAX_AUTHORITY_MS);
      TombstoneStays(c, session, until, now, session, until);
      RemoveStays(t, session, until);
      assert Barred(t, session, until) && KeepsBar(t, RemoveGrant(t, session), session, until);
    }
  }

  lemma PruneIds(a: Authority, id: RequestId, now: int)
    ensures id in Prune(a, now).requestIds <==> id in a.requestIds && a.requestIds[id] > now
  {
  }

  lemma RemembersNew(a: Authority, id: RequestId, genuine: bool, now: int)
    requires IsNew(a, id, genuine, now)
    ensures Remembered(Admit(a, id, genuine, now).0, id, now + MAX_AUTHORITY_MS)
    ensures !Admit(a, id, genuine, now).1 ==> Admit(a, id, genuine, now).0.closed
  {
    hide Prune, RemoveGrants;
    PruneIds(a, id, now);
  }

  /** A session revoked by a new message at `now` is tombstoned or its binding's authority closed, so
      no grant for it is held, in every state of every run before `now + MAX_AUTHORITY_MS`: unless a
      lookup that was begun under a grant which ends sooner answers inactive in between. */
  lemma RevokedStaysBarred(states: seq<Broker>, events: seq<Event>, i: nat, j: nat, b: BindingId, id: RequestId, session: SessionId, now: int)
    requires IsRun(states, events) && i < j < |states| && RevokesAt(states[i], events[i], b, id, session, now)
    requires forall k | i < k < j ::
               Within(events[k], now, now + MAX_AUTHORITY_MS) && !ShortensAt(states[k], events[k], b, session, now + MAX_AUTHORITY_MS)
    ensures b in states[j].kids.bindings
    ensures var a := states[j].kids.bindings[b].authority;
            (a.closed || session in a.tombstones) && session !in a.sessions
  {
    hide IsRun, Inv, Enabled, Apply, Within, ShortensAt;
    RunLength(states, events);
    RevokeAt(states, events, i, b, id, session, now);
    BarHolds(states, events, i + 1, j, b, session, now + MAX_AUTHORITY_MS);
  }

  lemma RevokeAt(states: seq<Broker>, events: seq<Event>, i: nat, b: BindingId, id: RequestId, session: SessionId, now: int)
    requires IsRun(states, events) && i < |events| && RevokesAt(states[i], events[i], b, id, session, now)
    ensures i + 1 < |states| && b in states[i + 1].kids.bindings
    ensures var a := states[i + 1].kids.bindings[b].authority;
            Barred(a, session, now + MAX_AUTHORITY_MS) && Remembered(a, id, now + MAX_AUTHORITY_MS)
  {
    hide IsRun, Inv, Apply, Revoke, Barred, Remembered, IsNew;
    RunStep(states, events, i);
    RunKeeps(states, events, i, i);
    ChangeIs(states[i], events[i], b);
    NewRevokeBars(states[i].kids.bindings[b].authority, id, session, events[i].session.genuine, now);
  }

  /** A lookup of the session is pending that was begun under a grant which ends before this time. */
  ghost predicate LookupPending(s: Broker, b: BindingId, session: SessionId, until: int) {
    exists f :: LookupAt(s, f, b, session, until)
  }

  /** While a session is barred no lookup of it begins. */
  lemma NoLookupBegins(s: Broker, e: Event, b: BindingId, session: SessionId, until: int)
    requires Inv(s) && Enabled(s, e) && b in s.kids.bindings && Barred(s.kids.bindings[b].authority, session, until)
    requires !LookupPending(s, b, session, until)
    ensures !LookupPending(Apply(s, e), b, session, until)
  {
    hide Inv, Apply, Barred, LookupAt;
    AuthorityAt(s, b);
    BarredHasNone(s.kids.bindings[b].authority, session, until);
    if LookupPending(Apply(s, e), b, session, until) {
      var f :| LookupAt(Apply(s, e), f, b, session, until);
      LookupFrom(s, e, f, b, session, until);
    }
  }

  lemma LookupFrom(s: Broker, e: Event, f: int, b: BindingId, session: SessionId, until: int)
    requires Enabled(s, e) && b in s.kids.bindings && session !in s.kids.bindings[b].authority.sessions
    requires LookupAt(Apply(s, e), f, b, session, until)
    ensures LookupAt(s, f, b, session, until)
  {
    hide OpApply, ChildApply, LockCall, Install, CanInstallGrant, Admit, StillAuthorized, Admissible, ActiveKey;
    match e
    case OnOp(o) => OpRepliesNothing(s, o);
    case OnChild(c) =>
    case OnSession(x) =>
    case OnRequest(q) =>
  }

  /** The events lead from one state to another, and the times they read do not decrease from `from` on. */
  ghost predicate LeadsWithin(s: Broker, events: seq<Event>, t: Broker, from: int, until: int)
    decreases |events|
  {
    if events == [] then s == t
    else
      && Enabled(s, events[0]) && Within(events[0], from, until)
      && LeadsWithin(Apply(s, events[0]), events[1..], t, if Clock(events[0]).Some? then Clock(events[0]).value else from, until)
  }

  lemma {:induction false} BarredAlong(s: Broker, events: seq<Event>, t: Broker, from: int, b: BindingId, session: SessionId, until: int)
    requires Inv(s) && b in s.kids.bindings && Barred(s.kids.bindings[b].authority, session, until)
    requires !LookupPending(s, b, session, until) && LeadsWithin(s, events, t, from, until) && until - MAX_AUTHORITY_MS <= from
    ensures b in t.kids.bindings && Barred(t.kids.bindings[b].authority, session, until)
    decreases |events|
  {
    hide Inv, Apply, Enabled, Barred, LookupAt, LookupPending;
    if events != [] {
      var (e, m) := (events[0], Apply(s, events[0]));
      Step(s, e);
      NoneShortens(s, e, b, session, until);
      BarStep(s, e, b, session, until);
      NoLookupBegins(s, e, b, session, until);
      BarredAlong(m, events[1..], t, if Clock(e).Some? then Clock(e).value else from, b, session, until);
    }
  }

  lemma NoneShortens(s: Broker, e: Event, b: BindingId, session: SessionId, until: int)
    requires !LookupPending(s, b, session, until)
    ensures !ShortensAt(s, e, b, session, until)
  {
    hide LookupAt;
  }

  /** Before that time the session can become free again. */
  ghost predicate CanBeFreed(s: Broker, b: BindingId, session: SessionId, from: int, until: int) {
    exists events: seq<Event>, t: Broker ::
      LeadsWithin(s, events, t, from, until) && b in t.kids.bindings
      && !t.kids.bindings[b].authority.closed && session !in t.kids.bindings[b].authority.tombstones
  }

  /** What a lookup that answers inactive does to the tombstone of its session. */
  lemma InactiveReplaces(a: Authority, session: SessionId, to: int, now: int)
    requires !a.closed && session in a.tombstones && a.tombstones[session] > now
    ensures var c := Recheck(a, session, to, Inactive, now);
            && !c.closed && session in c.tombstones && c.tombstones[session] == Max(to, now + 1)
            && c.role == a.role && forall id | id in a.requestIds && a.requestIds[id] > now :: id in c.requestIds && c.requestIds[id] == a.requestIds[id]
  {
  }

  /** A message under a remembered id does nothing but let what has expired go. */
  lemma ReplayPrunes(a: Authority, id: RequestId, session: SessionId, now: int)
    requires !a.closed && a.role == Api && id in a.requestIds && a.requestIds[id] > now
    ensures Revoke(a, id, session, true, now) == Prune(a, now) && !Prune(a, now).closed
    ensures session in Prune(a, now).tombstones <==> session in a.tombstones && a.tombstones[session] > now
  {
    PruneIds(a, id, now);
  }

  /** The two events that free it: the lookup answers inactive, and once its grant's time is over a
      message comes, even a replayed one. */
  lemma FreedBy(s: Broker, f: int, child: Child, b: BindingId, id: RequestId, session: SessionId, now: int)
    requires LookupAt(s, f, b, session, now + MAX_AUTHORITY_MS) && b in s.kids.bindings && From(s.kids, child, b)
    requires var a := s.kids.bindings[b].authority;
             && !a.closed && a.role == Api && Barred(a, session, now + MAX_AUTHORITY_MS) && Remembered(a, id, now + MAX_AUTHORITY_MS)
    ensures CanBeFreed(s, b, session, now, now + MAX_AUTHORITY_MS)
  {
    hide Recheck, Revoke, Prune, CheckRequest, StillAuthorized;
    var (a, grant) := (s.kids.bindings[b].authority, s.frames.requests[f].check.grant);
    var (until, freed) := (now + MAX_AUTHORITY_MS, Max(grant.expiresAt, now + 1));
    var e := OnRequest(RequestIsVerified(f, Inactive, now));
    InactiveReplaces(a, session, grant.expiresAt, now);
    var m := Apply(s, e);
    var c := m.kids.bindings[b].authority;
    assert c == Recheck(a, session, grant.expiresAt, Inactive, now);
    var g := OnSession(OwnerRevoke(child, id, session, true, freed));
    ReplayPrunes(c, id, session, freed);
    var t := Apply(m, g);
    assert t.kids.bindings[b].authority == Prune(c, freed);
    TwoLead(s, e, g, t, now, until);
  }

  lemma TwoLead(s: Broker, e: Event, g: Event, t: Broker, from: int, until: int)
    requires Enabled(s, e) && Enabled(Apply(s, e), g) && t == Apply(Apply(s, e), g)
    requires Clock(e) == Some(from) && Clock(g).Some? && from <= Clock(g).value < until
    ensures LeadsWithin(s, [e, g], t, from, until)
  {
    hide Enabled, Apply;
    assert [e, g][1..] == [g] && [g][1..] == [];
    assert LeadsWithin(t, [], t, Clock(g).value, until);
    assert LeadsWithin(Apply(s, e), [g], t, from, until);
  }

  /** A revocation lasts its eight days exactly when it closed the binding's authority, or no lookup of
      the session was pending then that began under a grant which ends sooner: only then is the session
      tombstoned or the authority closed in whatever follows within that time. */
  lemma RevocationLastsExactlyWhen(states: seq<Broker>, events: seq<Event>, i: nat, b: BindingId, id: RequestId, session: SessionId, now: int)
    requires IsRun(states, events) && i < |events| && RevokesAt(states[i], events[i], b, id, session, now)
    ensures i + 1 < |states| && b in states[i + 1].kids.bindings
    ensures var (s, until) := (states[i + 1], now + MAX_AUTHORITY_MS);
            CanBeFreed(s, b, session, now, until) <==> !s.kids.bindings[b].authority.closed && LookupPending(states[i], b, session, until)
  {
    hide IsRun, Inv, Enabled, Apply, Barred, Remembered, LookupAt, LeadsWithin;
    RevokeAt(states, events, i, b, id, session, now);
    RunStep(states, events, i);
    RunKeeps(states, events, i + 1, i + 1);
    var (s, until, child) := (states[i + 1], now + MAX_AUTHORITY_MS, events[i].session.child);
    RevokeLeavesFrames(states[i], events[i], b, id, session, now);
    var a := s.kids.bindings[b].authority;
    if !a.closed && LookupPending(s, b, session, until) {
      var f :| LookupAt(s, f, b, session, until);
      FreedBy(s, f, child, b, id, session, now);
    }
    if CanBeFreed(s, b, session, now, until) {
      var more, t :| LeadsWithin(s, more, t, now, until) && b in t.kids.bindings
                     && !t.kids.bindings[b].authority.closed && session !in t.kids.bindings[b].authority.tombstones;
      if a.closed { ClosedAlong(s, more, t, now, b, session, until); }
      else if !LookupPending(s, b, session, until) { BarredAlong(s, more, t, now, b, session, until); FreeIsNotBarred(t.kids.bindings[b].authority, session, until); }
    }
  }

  lemma FreeIsNotBarred(a: Authority, session: SessionId, until: int)
    requires !a.closed && session !in a.tombstones
    ensures !Barred(a, session, until)
  {
  }

  lemma RevokeLeavesFrames(s: Broker, e: Event, b: BindingId, id: RequestId, session: SessionId, now: int)
    requires Enabled(s, e) && RevokesAt(s, e, b, id, session, now)
    ensures var t := Apply(s, e);
            && t.frames == s.frames && From(t.kids, e.session.child, b) && b in t.kids.bindings && t.kids.bindings[b].authority.role == Api
            && forall until: int :: LookupPending(t, b, session, until) <==> LookupPending(s, b, session, until)
  {
    hide LookupPending, Prune, RemoveGrants;
    RevokeKeepsRole(s.kids.bindings[b].authority, id, session, e.session.genuine, now);
    forall until: int ensures LookupPending(Apply(s, e), b, session, until) <==> LookupPending(s, b, session, until) {
      SameLookups(s, Apply(s, e), b, session, until);
    }
  }

  lemma RevokeKeepsRole(a: Authority, id: RequestId, session: SessionId, genuine: bool, now: int)
    ensures Revoke(a, id, session, genuine, now).role == a.role
  {
  }

  lemma SameLookups(s: Broker, t: Broker, b: BindingId, session: SessionId, until: int)
    requires t.frames == s.frames
    ensures LookupPending(t, b, session, until) <==> LookupPending(s, b, session, until)
  {
    assert forall f :: LookupAt(t, f, b, session, until) <==> LookupAt(s, f, b, session, until);
  }

  lemma {:induction false} ClosedAlong(s: Broker, events: seq<Event>, t: Broker, from: int, b: BindingId, session: SessionId, until: int)
    requires Inv(s) && b in s.kids.bindings && s.kids.bindings[b].authority.closed && LeadsWithin(s, events, t, from, until)
    ensures b in t.kids.bindings && t.kids.bindings[b].authority.closed
    decreases |events|
  {
    hide Inv, Apply, Enabled;
    if events != [] {
      var (e, m) := (events[0], Apply(s, events[0]));
      Step(s, e);
      ClosedAlong(m, events[1..], t, if Clock(e).Some? then Clock(e).value else from, b, session, until);
    }
  }

  // ---------------------------------------------------------------- what has not expired stays

  /** The request id of an authority message. */
  function MessageId(e: Event): Option<RequestId> {
    match e
    case OnSession(OwnerRevoke(_, id, _, _, _)) => Some(id)
    case OnSession(OwnerGrant(_, m, _, _)) => Some(m.requestId)
    case _ => None
  }

  /** An authority message to `b`, open and genuine. */
  predicate MessageTo(s: Broker, e: Event, b: BindingId, id: RequestId, now: int) {
    && b in s.kids.bindings && Clock(e) == Some(now)
    && match e
       case OnSession(OwnerRevoke(c, other, _, genuine, _)) => From(s.kids, c, b) && other == id && IsNew(s.kids.bindings[b].authority, id, genuine, now)
       case OnSession(OwnerGrant(d, m, genuine, _)) => d == b && m.requestId == id && IsNew(s.kids.bindings[b].authority, id, genuine, now)
       case _ => false
  }

  lemma MessageRemembered(s: Broker, e: Event, b: BindingId, id: RequestId, now: int)
    requires Inv(s) && Enabled(s, e) && MessageTo(s, e, b, id, now)
    ensures b in Apply(s, e).kids.bindings && Remembered(Apply(s, e).kids.bindings[b].authority, id, now + MAX_AUTHORITY_MS)
  {
    hide Inv, Apply, Revoke, Admit, Barred, Remembered, IsNew;
    ChangeIs(s, e, b);
    var a := s.kids.bindings[b].authority;
    if e.session.OwnerRevoke? {
      NewRevokeBars(a, id, e.session.session, e.session.genuine, now);
    } else {
      RemembersNew(a, id, e.session.genuine, now);
    }
  }

  /** A message under an id still remembered changes nothing: no pending grant, no tombstone, no id. */
  ghost predicate Refused(s: Broker, t: Broker, b: BindingId, now: int) {
    && t.calls == s.calls && t.frames == s.frames && b in s.kids.bindings && b in t.kids.bindings
    && (t.kids.bindings[b].authority == s.kids.bindings[b].authority || OnlyExpires(s.kids.bindings[b].authority, t.kids.bindings[b].authority, now))
  }

  lemma RememberedIsRefused(s: Broker, e: Event, b: BindingId, id: RequestId, now: int, until: int)
    requires Enabled(s, e) && b in s.kids.bindings && Remembered(s.kids.bindings[b].authority, id, until) && now < until
    requires MessageId(e) == Some(id) && Clock(e) == Some(now)
    requires if e.session.OwnerRevoke? then From(s.kids, e.session.child, b) else e.session.binding == b
    ensures Refused(s, Apply(s, e), b, now)
  {
    hide Prune, RemoveGrants, OnlyExpires, MayVerify;
    PruneOnlyExpires(s.kids.bindings[b].authority, now);
    PruneIds(s.kids.bindings[b].authority, id, now);
  }

  /** An id admitted at `now` is not admitted again in the eight days after it, in any run: a second
      message under it, grant or revocation, only lets go what has expired. */
  lemma ReplayIsRefused(states: seq<Broker>, events: seq<Event>, i: nat, j: nat, b: BindingId, id: RequestId, now: int)
    requires IsRun(states, events) && i < j < |events| && MessageTo(states[i], events[i], b, id, now)
    requires forall k | i < k <= j :: Within(events[k], now, now + MAX_AUTHORITY_MS)
    requires MessageId(events[j]) == Some(id)
    requires if events[j].session.OwnerRevoke? then From(states[j].kids, events[j].session.child, b) else events[j].session.binding == b
    ensures Refused(states[j], states[j + 1], b, Clock(events[j]).value)
  {
    hide IsRun, Inv, Enabled, Apply, Remembered, Refused, MessageTo;
    RunLength(states, events);
    RunStep(states, events, i);
    RunStep(states, events, j);
    RunKeeps(states, events, i, i);
    MessageRemembered(states[i], events[i], b, id, now);
    IdHolds(states, events, i + 1, j, b, id, now + MAX_AUTHORITY_MS);
    RememberedIsRefused(states[j], events[j], b, id, Clock(events[j]).value, now + MAX_AUTHORITY_MS);
  }

  // ---------------------------------------------------------------- how a grant is lost

  /** The events that may take this grant away: its own time, a revocation, a replacement, a lookup
      that fails, or its timer. */
  predicate TakesGrant(s: Broker, e: Event, b: BindingId, session: SessionId, g: Grant) {
    || (Clock(e).Some? && g.expiresAt <= Clock(e).value)
    || (e.OnSession? && match e.session
        case OwnerRevoke(c, _, other, _, _) => From(s.kids, c, b) && other == session
        case SessionVerified(f, _, _) => f in s.frames.grants && s.frames.grants[f].binding == b && s.frames.grants[f].request.session == session
        case SessionExpires(d, other, _) => d == b && other == session
        case _ => false)
    || (e.OnRequest? && e.request.RequestIsVerified? && e.request.frame in s.frames.requests
        && s.frames.requests[e.request.frame].binding == b
        && var check := s.frames.requests[e.request.frame].check;
           check.Verifying? && check.session == session && (e.request.verification == Inactive || e.request.verification == Superseded))
  }

  ghost predicate Has(a: Authority, session: SessionId, g: Grant) { session in a.sessions && a.sessions[session] == g }

  lemma ChangeKeepsGrant(a: Authority, change: Change, session: SessionId, g: Grant)
    requires Has(a, session, g) && !Changed(a, change).closed
    requires match change
             case Same => true
             case Closes => true
             case Revokes(_, other, _, now) => other != session && g.expiresAt > now
             case Admits(_, _, now) => g.expiresAt > now
             case Installs(m, now, _) => m.session != session && g.expiresAt > now
             case Expires(other, _, now) => other != session && g.expiresAt > now
             case Rechecks(other, _, v, now) => (other != session || (v != Inactive && v != Superseded)) && g.expiresAt > now
    ensures Has(Changed(a, change), session, g)
  {
    hide Prune, Tombstone, RemoveGrant, Admit, Has, Close;
    match change
    case Same =>
    case Closes => CloseShrinks(a);
    case Revokes(id, other, genuine, now) =>
      var (c, ok) := Admit(a, id, genuine, now);
      AdmitHas(a, id, genuine, now, session, g);
      if ok {
        TombstoneHas(c, other, now + MAX_AUTHORITY_MS, now, session, g);
        RemoveHas(Tombstone(c, other, now + MAX_AUTHORITY_MS, now), other, session, g);
      }
    case Admits(id, genuine, now) => AdmitHas(a, id, genuine, now, session, g);
    case Installs(m, now, newId) => InstallHas(a, m, now, newId, session, g);
    case Expires(other, to, now) =>
      RemoveHas(a, other, session, g);
      TombstoneHas(RemoveGrant(a, other), other, to, now, session, g);
    case Rechecks(other, to, v, now) =>
      TombstoneHas(a, other, to, now, session, g);
      if other != session {
        RemoveHas(a, other, session, g);
        RemoveHas(Tombstone(a, other, to, now), other, session, g);
      }
  }

  lemma RemoveHas(a: Authority, other: SessionId, session: SessionId, g: Grant)
    requires other != session
    ensures RemoveGrant(a, other).closed == a.closed && (Has(a, session, g) ==> Has(RemoveGrant(a, other), session, g))
  {
  }

  lemma TombstoneHas(a: Authority, other: SessionId, to: int, now: int, session: SessionId, g: Grant)
    requires g.expiresAt > now
    ensures !Tombstone(a, other, to, now).closed ==> !a.closed && (Has(a, session, g) ==> Has(Tombstone(a, other, to, now), session, g))
  {
    hide Prune, RemoveGrants;
    PruneOnlyExpires(a, now);
  }

  lemma AdmitHas(a: Authority, id: RequestId, genuine: bool, now: int, session: SessionId, g: Grant)
    requires g.expiresAt > now && Has(a, session, g)
    ensures !Admit(a, id, genuine, now).0.closed ==> Has(Admit(a, id, genuine, now).0, session, g) && !a.closed
  {
    hide Prune, RemoveGrants;
    PruneOnlyExpires(a, now);
  }

  lemma InstallHas(a: Authority, m: GrantRequest, now: int, newId: GrantId, session: SessionId, g: Grant)
    requires g.expiresAt > now && Has(a, session, g) && m.session != session
    ensures !Install(a, m, now, newId).0.closed ==> Has(Install(a, m, now, newId).0, session, g)
  {
    hide Prune;
    PruneOnlyExpires(a, now);
  }

  /** In every reachable state, whatever happens, a grant that has not expired stays unless it is revoked,
      replaced, found inactive or superseded, taken by its own timer, or the authority closes. */
  lemma GrantLeavesOnlyBy(states: seq<Broker>, events: seq<Event>, i: nat, b: BindingId, session: SessionId)
    requires IsRun(states, events) && i < |events| && b in states[i].kids.bindings && session in states[i].kids.bindings[b].authority.sessions
    ensures b in states[i + 1].kids.bindings
    ensures var (g, a) := (states[i].kids.bindings[b].authority.sessions[session], states[i + 1].kids.bindings[b].authority);
            a.closed || TakesGrant(states[i], events[i], b, session, g) || (session in a.sessions && a.sessions[session] == g)
  {
    hide IsRun, Inv, Apply, Changed, CanInstallGrant;
    RunStep(states, events, i);
    RunKeeps(states, events, i, i);
    var s := states[i];
    ChangeIs(s, events[i], b);
    var (a, change) := (s.kids.bindings[b].authority, ChangeAt(s, events[i], b));
    if !Changed(a, change).closed && !TakesGrant(s, events[i], b, session, a.sessions[session]) {
      ChangeKeepsGrant(a, change, session, a.sessions[session]);
    }
  }

  // ---------------------------------------------------------------- how authority is closed

  lemma AdmitCloses(a: Authority, id: RequestId, genuine: bool, now: int)
    requires !a.closed
    ensures var (c, ok) := Admit(a, id, genuine, now);
            (c.closed ==> Full(a, now)) && (ok ==> !c.closed && Fresh(c.tombstones, now) == Fresh(a.tombstones, now))
  {
    hide Prune, Fresh, FreshGrants;
    PruneIsFresh(a, now);
    PruneOnlyExpires(a, now);
  }

  lemma TombstoneCloses(a: Authority, session: SessionId, to: int, now: int)
    requires !a.closed && Tombstone(a, session, to, now).closed
    ensures |Fresh(a.tombstones, now)| >= MAX_RECORDS
  {
    hide Prune, Fresh, FreshGrants;
    PruneIsFresh(a, now);
    PruneOnlyExpires(a, now);
  }

  lemma InstallCloses(a: Authority, m: GrantRequest, now: int, newId: GrantId)
    requires !a.closed && Install(a, m, now, newId).0.closed
    ensures Full(a, now)
  {
    hide Prune, Fresh, FreshGrants;
    PruneIsFresh(a, now);
    PruneOnlyExpires(a, now);
  }

  lemma ChangeCloses(a: Authority, change: Change)
    requires !a.closed && Changed(a, change).closed && !change.Closes?
    ensures !change.Same? && Full(a, change.now)
  {
    hide Prune, Tombstone, Admit, Install, Fresh, FreshGrants;
    match change
    case Same =>
    case Revokes(id, session, genuine, now) =>
      AdmitCloses(a, id, genuine, now);
      var (c, ok) := Admit(a, id, genuine, now);
      if ok { TombstoneCloses(c, session, now + MAX_AUTHORITY_MS, now); }
    case Admits(id, genuine, now) => AdmitCloses(a, id, genuine, now);
    case Installs(m, now, newId) => InstallCloses(a, m, now, newId);
    case Expires(session, to, now) => TombstoneCloses(RemoveGrant(a, session), session, to, now);
    case Rechecks(session, to, _, now) => if change.v == Inactive { TombstoneCloses(a, session, to, now); }
  }

  /** In every reachable state authority is closed only by a poisonous message of its own child, by its
      release from the registry, or because 1024 unexpired records of one kind were there. */
  lemma ClosesOnlyBy(states: seq<Broker>, events: seq<Event>, i: nat, b: BindingId)
    requires IsRun(states, events) && i < |events| && b in states[i].kids.bindings && !states[i].kids.bindings[b].authority.closed
    requires b in states[i + 1].kids.bindings && states[i + 1].kids.bindings[b].authority.closed
    ensures var (s, t, e) := (states[i], states[i + 1], events[i]);
            || (e.OnSession? && e.session.Poison? && From(s.kids, e.session.child, b))
            || !Registered(t.kids.children, b, t.kids.bindings[b])
            || (Clock(e).Some? && Full(s.kids.bindings[b].authority, Clock(e).value))
  {
    hide IsRun, Inv, Changed, CanInstallGrant, Full, OpApply, SessionApply, RequestApply;
    RunStep(states, events, i);
    RunKeeps(states, events, i, i);
    var s := states[i];
    ChangeIs(s, events[i], b);
    var (a, change) := (s.kids.bindings[b].authority, ChangeAt(s, events[i], b));
    if !change.Closes? { ChangeCloses(a, change); }
  }

  // ---------------------------------------------------------------- when a grant is given

  /** An unexpired tombstone of the session. */
  predicate Tombstoned(a: Authority, session: SessionId, now: int) { session in a.tombstones && a.tombstones[session] > now }

  /** What a grant message needs for its session to be looked up. */
  ghost predicate GoesOn(s: Broker, b: BindingId, m: GrantRequest, genuine: bool, now: int)
    requires b in s.kids.bindings
  {
    var a := s.kids.bindings[b].authority;
    && IsNew(a, m.requestId, genuine, now) && |Fresh(a.requestIds, now)| < MAX_RECORDS
    && a.verifier && now < m.expiresAt <= now + MAX_AUTHORITY_MS && !Tombstoned(a, m.session, now)
    && Pending(s.calls.ops, m.owner) == {}
  }

  /** It is looked up exactly then, under the owner's current generation. */
  lemma GrantGoesOnExactlyWhen(states: seq<Broker>, events: seq<Event>, i: nat, b: BindingId, m: GrantRequest, genuine: bool, now: int)
    requires IsRun(states, events) && i < |events| && events[i] == OnSession(OwnerGrant(b, m, genuine, now))
    ensures var (s, t) := (states[i], states[i + 1]);
            b in s.kids.bindings
            && if GoesOn(s, b, m, genuine, now)
               then t.frames.grants == s.frames.grants[s.frames.nextFrame := PendingGrant(b, m, Get(s.calls.generations, m.owner))]
               else t.frames == s.frames
  {
    hide IsRun, Inv, GoesOn, GrantAdmit;
    RunStep(states, events, i);
    RunKeeps(states, events, i, i);
    AdmitsExactlyWhen(states[i], b, m, genuine, now);
  }

  lemma AdmitsExactlyWhen(s: Broker, b: BindingId, m: GrantRequest, genuine: bool, now: int)
    requires Inv(s) && b in s.kids.bindings
    ensures GrantAdmit(s, b, m, genuine, now).frames
            == if GoesOn(s, b, m, genuine, now)
               then s.frames.(grants := s.frames.grants[s.frames.nextFrame := PendingGrant(b, m, Get(s.calls.generations, m.owner))],
                              nextFrame := s.frames.nextFrame + 1)
               else s.frames
  {
    hide Inv, Prune, RemoveGrants, Fresh, Pending;
    var a := s.kids.bindings[b].authority;
    PruneIsFresh(a, now);
    PruneOnlyExpires(a, now);
    PendingIsDepth(s, m.owner);
  }

  lemma PendingIsDepth(s: Broker, u: UserId)
    requires Inv(s)
    ensures Pending(s.calls.ops, u) == {} <==> Get(s.calls.depth, u) == 0
  {
    hide Inv, Pending;
    DepthOf(s, u);
  }

  /** What a pending grant needs when its session has been looked up: among others room, or an
      unexpired grant of the same session that it may renew. */
  ghost predicate MayBeGranted(s: Broker, g: PendingGrant, v: Verification, now: int)
    requires g.binding in s.kids.bindings
  {
    var (a, m) := (s.kids.bindings[g.binding].authority, g.request);
    && v == Active && now < m.expiresAt && !a.closed && m.session !in a.tombstones
    && Registered(s.kids.children, g.binding, s.kids.bindings[g.binding])
    && Get(s.calls.generations, m.owner) == g.generation && Pending(s.calls.ops, m.owner) == {}
    && (if m.session in a.sessions && a.sessions[m.session].expiresAt > now
        then a.sessions[m.session].owner == m.owner && a.sessions[m.session].tokenHash == m.tokenHash
             && a.sessions[m.session].expiresAt <= m.expiresAt
        else |FreshGrants(a.sessions, now)| < MAX_RECORDS)
  }

  /** What a grant that is given, or refused, comes to: the session is held for the owner until the
      requested time, under its old id only if it is repeated, and the reply names the grant; or nothing is replied and no session is added. */
  ghost predicate GrantedRightly(s: Broker, t: Broker, g: PendingGrant, v: Verification, now: int)
    requires g.binding in s.kids.bindings && g.binding in t.kids.bindings
  {
    var (a, c) := (s.kids.bindings[g.binding].authority, t.kids.bindings[g.binding].authority);
    if MayBeGranted(s, g, v, now) then
      && Given(a, c, g.request, now, s.frames.nextFrame)
      && t.frames.grantReplies
         == s.frames.grantReplies + [GrantReply(g.binding, g.request.owner, g.generation, c.sessions[g.request.session].grantId)]
    else t.frames.grantReplies == s.frames.grantReplies && c.sessions.Keys <= a.sessions.Keys
  }

  /** It is given exactly then. */
  lemma GrantIsGivenExactlyWhen(states: seq<Broker>, events: seq<Event>, i: nat, f: int, v: Verification, now: int)
    requires IsRun(states, events) && i < |events| && events[i] == OnSession(SessionVerified(f, v, now))
    ensures var (s, t) := (states[i], states[i + 1]);
            && f in s.frames.grants && s.frames.grants[f].binding in s.kids.bindings && s.frames.grants[f].binding in t.kids.bindings
            && GrantedRightly(s, t, s.frames.grants[f], v, now)
  {
    hide IsRun, Inv, GrantedRightly, GrantVerified;
    RunStep(states, events, i);
    RunKeeps(states, events, i, i);
    GivesExactlyWhen(states[i], f, v, now);
  }

  lemma GivesExactlyWhen(s: Broker, f: int, v: Verification, now: int)
    requires Inv(s) && GrantAt(s, f)
    ensures var t := GrantVerified(s, f, v, now);
            s.frames.grants[f].binding in t.kids.bindings && GrantedRightly(s, t, s.frames.grants[f], v, now)
  {
    hide Inv, Pending, Install, FreshGrants, AuthorityInv;
    var g := s.frames.grants[f];
    PendingIsDepth(s, g.request.owner);
    AuthorityAt(s, g.binding);
    InstallGives(s.kids.bindings[g.binding].authority, g.request, now, s.frames.nextFrame);
    assert s.frames.grantReplies + [] == s.frames.grantReplies;
  }

  /** The session is held as requested: a grant that is merely repeated keeps its id, any other is new. */
  ghost predicate Given(a: Authority, c: Authority, m: GrantRequest, now: int, newId: GrantId) {
    && m.session in c.sessions && m.owner in c.users
    && var g := c.sessions[m.session];
       && g.owner == m.owner && g.tokenHash == m.tokenHash && g.expiresAt == m.expiresAt
       && (if m.session in a.sessions && a.sessions[m.session].expiresAt == m.expiresAt > now then g == a.sessions[m.session] else g.grantId == newId)
  }

  lemma InstallGives(a: Authority, m: GrantRequest, now: int, newId: GrantId)
    requires AuthorityInv(a)
    ensures var (c, outcome) := Install(a, m, now, newId);
            var renews := m.session in a.sessions && a.sessions[m.session].expiresAt > now;
            if (if renews then a.sessions[m.session].owner == m.owner && a.sessions[m.session].tokenHash == m.tokenHash
                               && a.sessions[m.session].expiresAt <= m.expiresAt
                else |FreshGrants(a.sessions, now)| < MAX_RECORDS)
            then Given(a, c, m, now, newId) && (outcome == Installed(c.sessions[m.session].grantId) || outcome == Repeated(c.sessions[m.session].grantId))
            else outcome == Denied && c.sessions.Keys <= a.sessions.Keys
  {
    hide Prune, AuthorityInv, FreshGrants;
    PruneOnlyExpires(a, now);
    PruneIsFresh(a, now);
    PruneKeeps(a, now);
    if m.session in Prune(a, now).sessions { OwnerIsUser(Prune(a, now), m.session); }
  }
}
