/** The session authority of one broker binding: which owners a child may act for.
    An `Authority` is the value of a binding's session fields; the functions are the
    bodies of the broker's private helpers, and `SessionBinding` performs them in place. */
module SessionAuthority {
  import opened Identifiers

  const MAX_RECORDS: nat := 1_024
  const MAX_AUTHORITY_MS: int := 8 * 24 * 60 * 60 * 1000

  datatype Role = Api | Worker

  datatype Grant = Grant(owner: UserId, tokenHash: nat, expiresAt: int, grantId: GrantId)

  datatype Authority = Authority(
    role: Role,
    verifier: bool,
    staticUsers: set<UserId>,
    users: set<UserId>,
    sessions: map<SessionId, Grant>,
    tombstones: map<SessionId, int>,
    requestIds: map<RequestId, int>,
    closed: bool)

  datatype GrantRequest = GrantRequest(
    requestId: RequestId, session: SessionId, owner: UserId, tokenHash: nat, expiresAt: int)

  datatype Verification = Active | Superseded | Inactive | Unavailable

  /** What a grant request comes to once its session has been verified. */
  datatype GrantOutcome = Denied | Repeated(known: GrantId) | Installed(grantId: GrantId)

  function Owners(sessions: map<SessionId, Grant>): set<UserId> {
    set id | id in sessions :: sessions[id].owner
  }

  function Max(a: int, b: int): int { if a < b then b else a }

  /** The invariant every step keeps. */
  ghost predicate AuthorityInv(a: Authority) {
    && a.users == a.staticUsers + Owners(a.sessions)
    && a.tombstones.Keys !! a.sessions.Keys
    && (a.closed ==> a.sessions == map[])
    && Fits(a.sessions)
    && Fits(a.tombstones)
    && Fits(a.requestIds)
  }

  /** No record map of a binding outgrows its cap. */
  ghost predicate Fits<V>(m: map<int, V>) { |m| <= MAX_RECORDS }

  // ---------------------------------------------------------------- helpers of the broker

  /** Drop a set of grants; an owner left without a grant leaves `users` unless static. */
  function RemoveGrants(a: Authority, gone: set<SessionId>): Authority {
    var kept := a.sessions - gone;
    var dropped := set id | id in a.sessions && id in gone :: a.sessions[id].owner;
    a.(sessions := kept, users := a.users - (dropped - a.staticUsers - Owners(kept)))
  }

  function RemoveGrant(a: Authority, session: SessionId): Authority {
    RemoveGrants(a, {session})
  }

  function Live(m: map<int, int>, now: int): map<int, int> {
    map k | k in m && m[k] > now :: m[k]
  }

  function Expired(sessions: map<SessionId, Grant>, now: int): set<SessionId> {
    set id | id in sessions && sessions[id].expiresAt <= now
  }

  function Prune(a: Authority, now: int): Authority {
    RemoveGrants(
      a.(tombstones := Live(a.tombstones, now), requestIds := Live(a.requestIds, now)),
      Expired(a.sessions, now))
  }

  function Close(a: Authority): Authority {
    RemoveGrants(a, a.sessions.Keys).(closed := true)
  }

  function Tombstone(a: Authority, session: SessionId, until: int, now: int): Authority {
    var p := Prune(a, now);
    if session !in p.tombstones && |p.tombstones| >= MAX_RECORDS then Close(p)
    else p.(tombstones := p.tombstones[session := Max(until, now + 1)])
  }

  /** Remember a request id once; a replay or an overflow is refused. */
  function Remember(a: Authority, id: RequestId, now: int): (Authority, bool) {
    var p := Prune(a, now);
    if id in p.requestIds then (p, false)
    else if |p.requestIds| >= MAX_RECORDS then (Close(p), false)
    else (p.(requestIds := p.requestIds[id := now + MAX_AUTHORITY_MS]), true)
  }

  // ---------------------------------------------------------------- the steps

  /** The guard shared by grant and revoke messages. The request id is remembered last. */
  function Admit(a: Authority, id: RequestId, capabilityOk: bool, now: int): (Authority, bool) {
    if a.closed || a.role != Api || !capabilityOk then (a, false) else Remember(a, id, now)
  }

  function Revoke(a: Authority, id: RequestId, session: SessionId, capabilityOk: bool, now: int): Authority {
    var (b, ok) := Admit(a, id, capabilityOk, now);
    if !ok then b
    else RemoveGrant(Tombstone(b, session, now + MAX_AUTHORITY_MS, now), session)
  }

  /** Whether an admitted grant request goes on to session verification. */
  predicate MayVerify(a: Authority, m: GrantRequest, now: int) {
    && a.verifier
    && m.expiresAt > now
    && m.expiresAt - now <= MAX_AUTHORITY_MS
    && m.session !in a.tombstones
  }

  /** After verification: prune, then refuse, repeat or install. `newId` is the new grant id. */
  function Install(a: Authority, m: GrantRequest, now: int, newId: GrantId): (Authority, GrantOutcome) {
    Settle(Prune(a, now), m, newId)
  }

  function Settle(p: Authority, m: GrantRequest, newId: GrantId): (Authority, GrantOutcome) {
    if m.session in p.sessions then
      var existing := p.sessions[m.session];
      if existing.owner != m.owner || existing.tokenHash != m.tokenHash || existing.expiresAt > m.expiresAt
      then (p, Denied)
      else if existing.expiresAt == m.expiresAt then (p, Repeated(existing.grantId))
      else (Put(p, m, newId), Installed(newId))
    else if |p.sessions| >= MAX_RECORDS then (Close(p), Denied)
    else (Put(p, m, newId), Installed(newId))
  }

  /** Replace whatever grant the session had by the requested one. */
  function Put(a: Authority, m: GrantRequest, newId: GrantId): Authority {
    var q := RemoveGrant(a, m.session);
    q.(sessions := q.sessions[m.session := Grant(m.owner, m.tokenHash, m.expiresAt, newId)],
       users := q.users + {m.owner})
  }

  /** The guard that is checked again once verification has returned. */
  predicate MayInstall(a: Authority, m: GrantRequest, v: Verification, now: int) {
    v == Active && !a.closed && m.session !in a.tombstones && m.expiresAt > now
  }

  /** The expiry timer of a grant. */
  function Expire(a: Authority, session: SessionId, until: int, now: int): Authority {
    Tombstone(RemoveGrant(a, session), session, until, now)
  }

  /** What a request's session check does to the authority. */
  function Recheck(a: Authority, session: SessionId, until: int, v: Verification, now: int): Authority {
    match v
    case Inactive => RemoveGrant(Tombstone(a, session, until, now), session)
    case Superseded => RemoveGrant(a, session)
    case Active => a
    case Unavailable => a
  }

  // ---------------------------------------------------------------- the invariant

  lemma OwnersAfterRemoval(a: Authority, gone: set<SessionId>)
    requires a.users == a.staticUsers + Owners(a.sessions)
    ensures RemoveGrants(a, gone).users == a.staticUsers + Owners(a.sessions - gone)
  {
    var kept := a.sessions - gone;
    var dropped := set id | id in a.sessions && id in gone :: a.sessions[id].owner;
    forall o | o in Owners(a.sessions)
      ensures o in dropped || o in Owners(kept)
    {
      var id :| id in a.sessions && a.sessions[id].owner == o;
      if id !in gone { assert id in kept && kept[id].owner == o; }
    }
    assert Owners(kept) <= Owners(a.sessions) by {
      forall o | o in Owners(kept) ensures o in Owners(a.sessions) {
        var id :| id in kept && kept[id].owner == o;
        assert id in a.sessions;
      }
    }
  }

  lemma SmallerMap<V>(m: map<int, V>, n: map<int, V>)
    requires m.Keys <= n.Keys && Fits(n)
    ensures Fits(m)
  {
    SmallerSet(m.Keys, n.Keys);
    assert |m| == |m.Keys| && |n| == |n.Keys|;
  }

  lemma InsertFits<V>(m: map<int, V>, k: int, v: V)
    requires Fits(m) && (k in m || |m| < MAX_RECORDS)
    ensures Fits(m[k := v])
  {
    var n := m[k := v];
    assert n.Keys == m.Keys + {k} && |n| == |n.Keys| && |m| == |m.Keys|;
    if k in m { assert n.Keys == m.Keys; }
  }

  lemma {:induction false} SmallerSet<K>(a: set<K>, b: set<K>)
    requires a <= b
    ensures |a| <= |b|
  {
    if x :| x in a {
      SmallerSet(a - {x}, b - {x});
    }
  }

  lemma RemoveGrantsKeeps(a: Authority, gone: set<SessionId>)
    requires AuthorityInv(a)
    ensures AuthorityInv(RemoveGrants(a, gone))
  {
    OwnersAfterRemoval(a, gone);
    SmallerMap(a.sessions - gone, a.sessions);
    assert a.closed ==> a.sessions - gone == map[];
  }

  /** What has expired is gone, and everything else is as it was. */
  ghost predicate OnlyExpires(a: Authority, c: Authority, now: int) {
    && c.closed == a.closed && c.role == a.role && c.verifier == a.verifier && c.staticUsers == a.staticUsers
    && (forall k :: k in c.tombstones <==> k in a.tombstones && a.tombstones[k] > now)
    && (forall k :: k in c.requestIds <==> k in a.requestIds && a.requestIds[k] > now)
    && (forall k :: k in c.sessions <==> k in a.sessions && a.sessions[k].expiresAt > now)
    && (forall k | k in c.tombstones :: c.tombstones[k] == a.tombstones[k])
    && (forall k | k in c.requestIds :: c.requestIds[k] == a.requestIds[k])
    && (forall k | k in c.sessions :: c.sessions[k] == a.sessions[k])
  }

  lemma PruneOnlyExpires(a: Authority, now: int)
    ensures OnlyExpires(a, Prune(a, now), now)
  {
  }

  function Fresh(records: map<int, int>, now: int): set<int> { set k | k in records && records[k] > now }

  function FreshGrants(sessions: map<SessionId, Grant>, now: int): set<SessionId> {
    set k | k in sessions && sessions[k].expiresAt > now
  }

  /** The cap is reached: this many unexpired request ids, tombstones or grants. */
  predicate Full(a: Authority, now: int) {
    || |Fresh(a.requestIds, now)| >= MAX_RECORDS || |Fresh(a.tombstones, now)| >= MAX_RECORDS
    || |FreshGrants(a.sessions, now)| >= MAX_RECORDS
  }

  lemma FreshIs(m: map<int, int>, n: map<int, int>, now: int)
    requires forall k :: k in n <==> k in m && m[k] > now
    requires forall k | k in n :: n[k] == m[k]
    ensures |n| == |Fresh(m, now)| && Fresh(n, now) == Fresh(m, now)
  {
    var f := Fresh(m, now);
    assert forall k :: k in f <==> k in n;
    assert f <= n.Keys && n.Keys <= f;
    assert n.Keys == f;
    assert |n| == |n.Keys|;
    FreshAgain(m, n, now);
  }

  lemma FreshAgain(m: map<int, int>, n: map<int, int>, now: int)
    requires forall k :: k in n <==> k in m && m[k] > now
    requires forall k | k in n :: n[k] == m[k]
    ensures Fresh(n, now) == Fresh(m, now)
  {
    var (f, g) := (Fresh(m, now), Fresh(n, now));
    assert forall k :: k in f <==> k in g;
    assert f <= g && g <= f;
  }

  lemma FreshGrantsAre(m: map<SessionId, Grant>, n: map<SessionId, Grant>, now: int)
    requires forall k :: k in n <==> k in m && m[k].expiresAt > now
    ensures |n| == |FreshGrants(m, now)|
  {
    var f := FreshGrants(m, now);
    assert forall k :: k in f <==> k in n;
    assert f <= n.Keys && n.Keys <= f;
    assert n.Keys == f;
    assert |n| == |n.Keys|;
  }

  lemma PruneIsFresh(a: Authority, now: int)
    ensures var p := Prune(a, now);
            && |p.requestIds| == |Fresh(a.requestIds, now)| && Fresh(p.requestIds, now) == Fresh(a.requestIds, now)
            && |p.tombstones| == |Fresh(a.tombstones, now)| && Fresh(p.tombstones, now) == Fresh(a.tombstones, now)
            && |p.sessions| == |FreshGrants(a.sessions, now)|
  {
    hide Prune, Fresh, FreshGrants;
    var p := Prune(a, now);
    PruneOnlyExpires(a, now);
    FreshIs(a.requestIds, p.requestIds, now);
    FreshIs(a.tombstones, p.tombstones, now);
    FreshGrantsAre(a.sessions, p.sessions, now);
  }

  /** Pruning lets go exactly what has expired. */
  lemma PruneKeeps(a: Authority, now: int)
    requires AuthorityInv(a)
    ensures AuthorityInv(Prune(a, now)) && OnlyExpires(a, Prune(a, now), now)
    ensures Prune(a, now).sessions.Keys <= a.sessions.Keys
    ensures Prune(a, now).tombstones.Keys <= a.tombstones.Keys
    ensures Prune(a, now).users <= a.users
  {
    var b := a.(tombstones := Live(a.tombstones, now), requestIds := Live(a.requestIds, now));
    SmallerMap(b.tombstones, a.tombstones);
    SmallerMap(b.requestIds, a.requestIds);
    RemoveGrantsKeeps(b, Expired(a.sessions, now));
  }

  lemma CloseKeeps(a: Authority)
    requires AuthorityInv(a)
    ensures AuthorityInv(Close(a)) && Close(a).closed && Close(a).sessions == map[]
  {
    RemoveGrantsKeeps(a, a.sessions.Keys);
    assert a.sessions - a.sessions.Keys == map[];
  }

  lemma MarkKeeps(p: Authority, session: SessionId, until: int)
    requires AuthorityInv(p) && (session in p.tombstones || |p.tombstones| < MAX_RECORDS)
    ensures var t := p.(tombstones := p.tombstones[session := until]);
            && AuthorityInv(RemoveGrant(t, session))
            && (session !in p.sessions ==> AuthorityInv(t))
  {
    var t := p.(tombstones := p.tombstones[session := until]);
    InsertFits(p.tombstones, session, until);
    OwnersAfterRemoval(t, {session});
    SmallerMap(t.sessions - {session}, t.sessions);
    assert t.closed ==> t.sessions - {session} == map[];
  }

  lemma TombstoneKeeps(a: Authority, session: SessionId, until: int, now: int)
    requires AuthorityInv(a)
    ensures var t := Tombstone(a, session, until, now);
            && AuthorityInv(RemoveGrant(t, session))
            && (a.closed ==> t.closed)
            && (session !in a.sessions ==> AuthorityInv(t))
            && (t.closed || session in t.tombstones)
            && t.users <= a.users
  {
    hide Prune;
    PruneKeeps(a, now);
    var p := Prune(a, now);
    CloseKeeps(p);
    if session !in p.tombstones && |p.tombstones| >= MAX_RECORDS {
      RemoveGrantsKeeps(Close(p), {session});
    } else {
      MarkKeeps(p, session, Max(until, now + 1));
    }
  }

  lemma RememberKeeps(a: Authority, id: RequestId, now: int)
    requires AuthorityInv(a)
    ensures AuthorityInv(Remember(a, id, now).0) && (a.closed ==> Remember(a, id, now).0.closed)
  {
    PruneKeeps(a, now);
    CloseKeeps(Prune(a, now));
  }

  lemma AdmitKeeps(a: Authority, id: RequestId, capabilityOk: bool, now: int)
    requires AuthorityInv(a)
    ensures AuthorityInv(Admit(a, id, capabilityOk, now).0)
    ensures a.closed ==> Admit(a, id, capabilityOk, now) == (a, false)
  {
    RememberKeeps(a, id, now);
  }

  /** A revocation leaves the session without a grant, whatever else was going on. */
  lemma RevokeKeeps(a: Authority, id: RequestId, session: SessionId, capabilityOk: bool, now: int)
    requires AuthorityInv(a)
    ensures AuthorityInv(Revoke(a, id, session, capabilityOk, now))
    ensures a.closed ==> Revoke(a, id, session, capabilityOk, now).closed
    ensures Admit(a, id, capabilityOk, now).1 ==>
              var r := Revoke(a, id, session, capabilityOk, now);
              session !in r.sessions && (r.closed || session in r.tombstones)
  {
    AdmitKeeps(a, id, capabilityOk, now);
    var b := Admit(a, id, capabilityOk, now).0;
    TombstoneKeeps(b, session, now + MAX_AUTHORITY_MS, now);
  }

  lemma ExpireKeeps(a: Authority, session: SessionId, until: int, now: int)
    requires AuthorityInv(a)
    ensures AuthorityInv(Expire(a, session, until, now)) && (a.closed ==> Expire(a, session, until, now).closed)
    ensures session !in Expire(a, session, until, now).sessions
    ensures Expire(a, session, until, now).closed || session in Expire(a, session, until, now).tombstones
  {
    RemoveGrantsKeeps(a, {session});
    TombstoneKeeps(RemoveGrant(a, session), session, until, now);
    PruneKeeps(RemoveGrant(a, session), now);
    CloseKeeps(Prune(RemoveGrant(a, session), now));
  }

  lemma RecheckKeeps(a: Authority, session: SessionId, until: int, v: Verification, now: int)
    requires AuthorityInv(a)
    ensures AuthorityInv(Recheck(a, session, until, v, now))
    ensures a.closed ==> Recheck(a, session, until, v, now).closed
    ensures Recheck(a, session, until, v, now).users <= a.users
    ensures v == Inactive || v == Superseded ==> session !in Recheck(a, session, until, v, now).sessions
    ensures v == Inactive ==> Recheck(a, session, until, v, now).closed || session in Recheck(a, session, until, v, now).tombstones
    ensures v == Active || v == Unavailable ==> Recheck(a, session, until, v, now) == a
  {
    RemoveGrantsKeeps(a, {session});
    TombstoneKeeps(a, session, until, now);
  }

  lemma PutKeeps(a: Authority, m: GrantRequest, newId: GrantId)
    requires AuthorityInv(a) && !a.closed && m.session !in a.tombstones
    requires m.session in a.sessions || |a.sessions| < MAX_RECORDS
    ensures AuthorityInv(Put(a, m, newId)) && Put(a, m, newId).users <= a.users + {m.owner}
  {
    var g := Grant(m.owner, m.tokenHash, m.expiresAt, newId);
    RemoveGrantsKeeps(a, {m.session});
    var q := RemoveGrant(a, m.session);
    if m.session in a.sessions { RemoveOneSize(a.sessions, m.session); } else { assert q.sessions == a.sessions; }
    OwnersAfterInsert(q.sessions, m.session, g);
    InsertFits(q.sessions, m.session, g);
  }

  /** Only an installation enlarges `users`, and by the requested owner alone. */
  ghost predicate GoodOutcome(users: set<UserId>, m: GrantRequest, b: Authority, outcome: GrantOutcome) {
    && AuthorityInv(b)
    && b.users <= (if outcome.Installed? then users + {m.owner} else users)
    && (!outcome.Denied? ==> m.owner in b.users)
    && (outcome.Installed? ==> m.session in b.sessions && b.sessions[m.session].grantId == outcome.grantId)
  }

  lemma SettleKeeps(p: Authority, m: GrantRequest, newId: GrantId)
    requires AuthorityInv(p) && !p.closed && m.session !in p.tombstones
    ensures GoodOutcome(p.users, m, Settle(p, m, newId).0, Settle(p, m, newId).1)
    ensures Settle(p, m, newId).0.staticUsers == p.staticUsers
  {
    hide AuthorityInv, Put, Close;
    if m.session in p.sessions {
      OwnerIsUser(p, m.session);
      PutKeeps(p, m, newId);
      PutHas(p, m, newId);
    } else if |p.sessions| < MAX_RECORDS {
      PutKeeps(p, m, newId);
      PutHas(p, m, newId);
    } else {
      CloseKeeps(p);
      CloseShrinks(p);
    }
  }

  lemma OwnerIsUser(a: Authority, session: SessionId)
    requires AuthorityInv(a) && session in a.sessions
    ensures a.sessions[session].owner in a.users
  {
    assert a.sessions[session].owner in Owners(a.sessions);
  }

  lemma PutHas(a: Authority, m: GrantRequest, newId: GrantId)
    ensures var b := Put(a, m, newId);
            m.owner in b.users && m.session in b.sessions && b.sessions[m.session].grantId == newId && b.staticUsers == a.staticUsers
  {
  }

  lemma CloseShrinks(a: Authority)
    ensures Close(a).users <= a.users && Close(a).closed && Close(a).staticUsers == a.staticUsers
  {
  }

  lemma InstallKeeps(a: Authority, m: GrantRequest, now: int, newId: GrantId)
    requires AuthorityInv(a) && !a.closed && m.session !in a.tombstones
    ensures GoodOutcome(a.users, m, Install(a, m, now, newId).0, Install(a, m, now, newId).1)
    ensures Install(a, m, now, newId).0.staticUsers == a.staticUsers
  {
    PruneKeeps(a, now);
    SettleKeeps(Prune(a, now), m, newId);
  }

  lemma RemoveOneSize<V>(s: map<int, V>, id: int)
    requires id in s && Fits(s)
    ensures |s - {id}| < MAX_RECORDS
  {
    assert (s - {id}).Keys == s.Keys - {id} && |s| == |s.Keys|;
    assert |s - {id}| == |(s - {id}).Keys|;
  }

  lemma OwnersAfterInsert(s: map<SessionId, Grant>, id: SessionId, g: Grant)
    requires id !in s
    ensures Owners(s[id := g]) == Owners(s) + {g.owner}
  {
    var t := s[id := g];
    forall o | o in Owners(s) ensures o in Owners(t) {
      var k :| k in s && s[k].owner == o;
      assert k in t && t[k].owner == o;
    }
    assert id in t;
  }
}
