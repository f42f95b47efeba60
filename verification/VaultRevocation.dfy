/** A revoked session granted again before its eight days are over: a lookup that was under way answers
    inactive, and replaces the revocation's tombstone by one that lasts only as long as the old grant. */
module VaultRevocation {
  import opened Identifiers
  import opened SessionAuthority
  import opened VaultBarrier
  import opened VaultSessions
  import opened BrokerSteps

  const CHILD: Child := 1
  const STATIC: UserId := 7
  const OWNER: UserId := 8
  const SESSION: SessionId := 5

  /** Request ids 1 and 3 ask for the grant, 2 revokes it. */
  function Ask(id: RequestId, expiresAt: int): GrantRequest { GrantRequest(id, SESSION, OWNER, 0, expiresAt) }

  function Bare(tombstones: map<SessionId, int>, requestIds: map<RequestId, int>): Authority {
    Authority(Api, true, {STATIC}, {STATIC}, map[], tombstones, requestIds, false)
  }

  function Holding(g: Grant, requestIds: map<RequestId, int>): Authority {
    Authority(Api, true, {STATIC}, {STATIC, OWNER}, map[SESSION := g], map[], requestIds, false)
  }

  const NONE: map<SessionId, Grant> := map[]
  const FIRST: Grant := Grant(OWNER, 0, 100, 1)
  const ONE: map<RequestId, int> := map[1 := MAX_AUTHORITY_MS]
  const TWO: map<RequestId, int> := map[1 := MAX_AUTHORITY_MS, 2 := 2 + MAX_AUTHORITY_MS]
  const THREE: map<RequestId, int> := map[1 := MAX_AUTHORITY_MS, 2 := 2 + MAX_AUTHORITY_MS, 3 := 101 + MAX_AUTHORITY_MS]

  /** The broker with this one binding and these pending handlers. */
  function With(a: Authority, grants: map<int, PendingGrant>, requests: map<int, Request>, next: int, replies: seq<GrantReply>): Broker {
    Broker(Empty.calls, Kids(map[CHILD := 0], map[0 := Binding(CHILD, a, map[], map[], Loading, false)], 1, map[], {}, {}),
           Frames(grants, requests, next, [], replies))
  }

  function Asked(check: Check): Request { Request(0, OWNER, 0, State, check) }

  // ---------------------------------------------------------------- the steps of the authority

  lemma AdmitIds(tombstones: map<SessionId, int>, live: map<SessionId, int>, ids: map<RequestId, int>, id: RequestId, now: int)
    requires id !in ids && |ids| < MAX_RECORDS && Live(ids, now) == ids
    requires live == Live(tombstones, now)
    ensures Admit(Bare(tombstones, ids), id, true, now) == (Bare(live, ids[id := now + MAX_AUTHORITY_MS]), true)
  {
    PruneBare(tombstones, ids, now);
  }

  lemma PruneBare(tombstones: map<SessionId, int>, ids: map<RequestId, int>, now: int)
    requires Live(ids, now) == ids
    ensures Prune(Bare(tombstones, ids), now) == Bare(Live(tombstones, now), ids)
  {
    assert Expired(NONE, now) == {};
    assert NONE - {} == NONE;
  }

  lemma PruneHolding(g: Grant, ids: map<RequestId, int>, now: int)
    requires g.expiresAt > now && Live(ids, now) == ids
    ensures Prune(Holding(g, ids), now) == Holding(g, ids)
  {
    assert Live(map[], now) == map[];
    assert Expired(map[SESSION := g], now) == {};
    assert map[SESSION := g] - {} == map[SESSION := g];
  }

  lemma InstallInto(ids: map<RequestId, int>, m: GrantRequest, now: int, newId: GrantId)
    requires m.session == SESSION && m.owner == OWNER && Live(ids, now) == ids
    ensures Install(Bare(map[], ids), m, now, newId) == (Holding(Grant(OWNER, m.tokenHash, m.expiresAt, newId), ids), Installed(newId))
  {
    hide Prune, RemoveGrants;
    PruneBare(map[], ids, now);
    LiveNone(now);
    RemoveFromBare(ids);
    assert NONE[SESSION := Grant(OWNER, m.tokenHash, m.expiresAt, newId)] == map[SESSION := Grant(OWNER, m.tokenHash, m.expiresAt, newId)];
    assert {STATIC} + {OWNER} == {STATIC, OWNER};
  }

  lemma LiveNone(now: int)
    ensures Live(map[], now) == map[]
  {
  }

  lemma RemoveFromBare(ids: map<RequestId, int>)
    ensures RemoveGrant(Bare(map[], ids), SESSION) == Bare(map[], ids)
  {
    assert NONE - {SESSION} == NONE;
  }

  lemma RevokeFrom()
    ensures Revoke(Holding(FIRST, ONE), 2, SESSION, true, 2) == Bare(map[SESSION := 2 + MAX_AUTHORITY_MS], TWO)
  {
    hide Prune, Live;
    LiveIds();
    PruneHolding(FIRST, ONE, 2);
    assert ONE[2 := 2 + MAX_AUTHORITY_MS] == TWO;
    PruneHolding(FIRST, TWO, 2);
    var t := Holding(FIRST, TWO).(tombstones := map[SESSION := 2 + MAX_AUTHORITY_MS]);
    assert map[][SESSION := 2 + MAX_AUTHORITY_MS] == map[SESSION := 2 + MAX_AUTHORITY_MS];
    assert t.sessions - {SESSION} == map[];
    assert (set id | id in t.sessions && id in {SESSION} :: t.sessions[id].owner) == {OWNER};
    assert RemoveGrant(t, SESSION) == Bare(map[SESSION := 2 + MAX_AUTHORITY_MS], TWO);
  }

  lemma InactiveFrom()
    ensures Recheck(Bare(map[SESSION := 2 + MAX_AUTHORITY_MS], TWO), SESSION, 100, Inactive, 3) == Bare(map[SESSION := 100], TWO)
  {
    var long := map[SESSION := 2 + MAX_AUTHORITY_MS];
    LiveIds();
    PruneBare(long, TWO, 3);
    assert Live(long, 3) == long && long[SESSION := 100] == map[SESSION := 100];
    assert NONE - {SESSION} == NONE;
  }

  // ---------------------------------------------------------------- the run

  const ATTACH: Event := OnChild(CallAttach(CHILD, Api, {STATIC}, true, true))
  const ASK: Event := OnSession(OwnerGrant(0, Ask(1, 100), true, 0))
  const GRANT: Event := OnSession(SessionVerified(0, Active, 0))
  const REQUEST: Event := OnRequest(RequestArrives(CHILD, OWNER, 0, State, Some((SESSION, 1)), true, 1))
  const REVOKE: Event := OnSession(OwnerRevoke(CHILD, 2, SESSION, true, 2))
  const LOOKUP: Event := OnRequest(RequestIsVerified(2, Inactive, 3))
  const ASK_AGAIN: Event := OnSession(OwnerGrant(0, Ask(3, 200), true, 101))
  const GRANT_AGAIN: Event := OnSession(SessionVerified(3, Active, 101))

  /** A run leads to a state. */
  ghost predicate Comes(states: seq<Broker>, events: seq<Event>, s: Broker) { RunTo(states, events, s) && |states| == |events| + 1 }

  lemma Next(states: seq<Broker>, events: seq<Event>, s: Broker, e: Event, t: Broker)
    requires Comes(states, events, s) && Enabled(s, e) && Apply(s, e) == t
    ensures Comes(states + [t], events + [e], t)
  {
    hide Enabled, Apply, RunTo;
    RunGoesOn(states, events, s, e);
  }

  lemma Attached()
    ensures Enabled(Empty, ATTACH) && Apply(Empty, ATTACH) == With(Bare(map[], map[]), map[], map[], 0, [])
  {
  }

  lemma IsAsked(a: Authority, c: Authority, m: GrantRequest, requests: map<int, Request>, next: int, replies: seq<GrantReply>, now: int)
    requires Admit(a, m.requestId, true, now) == (c, true) && MayVerify(c, m, now)
    ensures var (s, e) := (With(a, map[], requests, next, replies), OnSession(OwnerGrant(0, m, true, now)));
            Enabled(s, e) && Apply(s, e) == With(c, map[next := PendingGrant(0, m, 0)], requests, next + 1, replies)
  {
    hide Admit, MayVerify;
    assert map[][next := PendingGrant(0, m, 0)] == map[next := PendingGrant(0, m, 0)];
  }

  lemma IsGranted(a: Authority, c: Authority, m: GrantRequest, f: int, requests: map<int, Request>, next: int, replies: seq<GrantReply>, now: int)
    requires MayInstall(a, m, Active, now) && Install(a, m, now, next) == (c, Installed(next))
    ensures var (s, e) := (With(a, map[f := PendingGrant(0, m, 0)], requests, next, replies), OnSession(SessionVerified(f, Active, now)));
            Enabled(s, e) && Apply(s, e) == With(c, map[], requests, next + 1, replies + [GrantReply(0, m.owner, 0, next)])
  {
    hide Install, MayInstall;
    assert map[f := PendingGrant(0, m, 0)] - {f} == map[];
  }

  lemma IsRequested(replies: seq<GrantReply>)
    ensures var s := With(Holding(FIRST, ONE), map[], map[], 2, replies);
            Enabled(s, REQUEST) && Apply(s, REQUEST) == With(Holding(FIRST, ONE), map[], map[2 := Asked(Verifying(SESSION, FIRST))], 3, replies)
  {
    assert map[][2 := Asked(Verifying(SESSION, FIRST))] == map[2 := Asked(Verifying(SESSION, FIRST))];
  }

  lemma IsRevoked(requests: map<int, Request>, replies: seq<GrantReply>)
    ensures var s := With(Holding(FIRST, ONE), map[], requests, 3, replies);
            Enabled(s, REVOKE) && Apply(s, REVOKE) == With(Bare(map[SESSION := 2 + MAX_AUTHORITY_MS], TWO), map[], requests, 3, replies)
  {
    hide Revoke;
    RevokeFrom();
  }

  lemma IsInactive(replies: seq<GrantReply>)
    ensures var s := With(Bare(map[SESSION := 2 + MAX_AUTHORITY_MS], TWO), map[], map[2 := Asked(Verifying(SESSION, FIRST))], 3, replies);
            Enabled(s, LOOKUP) && Apply(s, LOOKUP) == With(Bare(map[SESSION := 100], TWO), map[], map[2 := Asked(Decided(false))], 3, replies)
  {
    hide Recheck;
    InactiveFrom();
    assert map[2 := Asked(Verifying(SESSION, FIRST))][2 := Asked(Decided(false))] == map[2 := Asked(Decided(false))];
  }

  const REPLIED: seq<GrantReply> := [GrantReply(0, OWNER, 0, 1)]
  const AGAIN: Grant := Grant(OWNER, 0, 200, 4)
  const VERIFYING: map<int, Request> := map[2 := Asked(Verifying(SESSION, FIRST))]
  const DENIED: map<int, Request> := map[2 := Asked(Decided(false))]

  lemma LiveIds()
    ensures Live(map[], 0) == map[] && Live(ONE, 0) == ONE && Live(ONE, 2) == ONE && Live(TWO, 2) == TWO && Live(TWO, 3) == TWO
    ensures Live(TWO, 101) == TWO && Live(THREE, 101) == THREE && Live(map[SESSION := 100], 101) == map[] && Live(map[], 101) == map[]
  {
  }

  lemma FirstGranted() returns (states: seq<Broker>, events: seq<Event>)
    ensures events == [ATTACH, ASK, GRANT]
    ensures Comes(states, events, With(Holding(FIRST, ONE), map[], map[], 2, REPLIED))
  {
    hide Enabled, Apply, RunTo, Comes, Admit, Install, Live;
    LiveIds();
    states, events := [Empty], [];
    ComesFirst();
    Attached();
    var s1 := With(Bare(map[], map[]), map[], map[], 0, []);
    Next(states, events, Empty, ATTACH, s1);
    Granting(map[], map[], 1, 0, ONE);
    IsAsked(Bare(map[], map[]), Bare(map[], ONE), Ask(1, 100), map[], 0, [], 0);
    var s2 := With(Bare(map[], ONE), map[0 := PendingGrant(0, Ask(1, 100), 0)], map[], 1, []);
    Next(states + [s1], events + [ATTACH], s1, ASK, s2);
    InstallInto(ONE, Ask(1, 100), 0, 1);
    IsGranted(Bare(map[], ONE), Holding(FIRST, ONE), Ask(1, 100), 0, map[], 1, [], 0);
    var s3 := With(Holding(FIRST, ONE), map[], map[], 2, REPLIED);
    Next(states + [s1] + [s2], events + [ATTACH] + [ASK], s2, GRANT, s3);
    states, events := states + [s1] + [s2] + [s3], events + [ATTACH] + [ASK] + [GRANT];
  }

  lemma ThenRevoked() returns (states: seq<Broker>, events: seq<Event>)
    ensures events == [ATTACH, ASK, GRANT, REQUEST, REVOKE, LOOKUP] && |states| == 7
    ensures states[4] == With(Holding(FIRST, ONE), map[], VERIFYING, 3, REPLIED)
    ensures Comes(states, events, With(Bare(map[SESSION := 100], TWO), map[], DENIED, 3, REPLIED))
  {
    hide Enabled, Apply, RunTo;
    var first, before := FirstGranted();
    var s3 := With(Holding(FIRST, ONE), map[], map[], 2, REPLIED);
    IsRequested(REPLIED);
    var s4 := With(Holding(FIRST, ONE), map[], VERIFYING, 3, REPLIED);
    Next(first, before, s3, REQUEST, s4);
    IsRevoked(VERIFYING, REPLIED);
    var s5 := With(Bare(map[SESSION := 2 + MAX_AUTHORITY_MS], TWO), map[], VERIFYING, 3, REPLIED);
    Next(first + [s4], before + [REQUEST], s4, REVOKE, s5);
    IsInactive(REPLIED);
    var s6 := With(Bare(map[SESSION := 100], TWO), map[], DENIED, 3, REPLIED);
    Next(first + [s4] + [s5], before + [REQUEST] + [REVOKE], s5, LOOKUP, s6);
    states, events := first + [s4] + [s5] + [s6], before + [REQUEST] + [REVOKE] + [LOOKUP];
  }

  lemma ThenAgain() returns (states: seq<Broker>, events: seq<Event>)
    ensures events == [ATTACH, ASK, GRANT, REQUEST, REVOKE, LOOKUP, ASK_AGAIN, GRANT_AGAIN] && |states| == 9
    ensures states[4] == With(Holding(FIRST, ONE), map[], VERIFYING, 3, REPLIED)
    ensures Comes(states, events, With(Holding(AGAIN, THREE), map[], DENIED, 5, REPLIED + [GrantReply(0, OWNER, 0, 4)]))
  {
    hide Enabled, Apply, RunTo, Admit, Install, Live;
    LiveIds();
    var first, before := ThenRevoked();
    var s6 := With(Bare(map[SESSION := 100], TWO), map[], DENIED, 3, REPLIED);
    Granting(map[SESSION := 100], TWO, 3, 101, THREE);
    IsAsked(Bare(map[SESSION := 100], TWO), Bare(map[], THREE), Ask(3, 200), DENIED, 3, REPLIED, 101);
    var s7 := With(Bare(map[], THREE), map[3 := PendingGrant(0, Ask(3, 200), 0)], DENIED, 4, REPLIED);
    Next(first, before, s6, ASK_AGAIN, s7);
    InstallInto(THREE, Ask(3, 200), 101, 4);
    IsGranted(Bare(map[], THREE), Holding(AGAIN, THREE), Ask(3, 200), 3, DENIED, 4, REPLIED, 101);
    var s8 := With(Holding(AGAIN, THREE), map[], DENIED, 5, REPLIED + [GrantReply(0, OWNER, 0, 4)]);
    Next(first + [s7], before + [ASK_AGAIN], s7, GRANT_AGAIN, s8);
    states, events := first + [s7] + [s8], before + [ASK_AGAIN] + [GRANT_AGAIN];
  }

  /** Revoked at time 2, the session is granted again at time 101, long before its eight days are over; the
      clocks of the run never go back. */
  lemma RevokedSessionIsGrantedAgain() returns (states: seq<Broker>, events: seq<Event>)
    ensures IsRun(states, events) && events == [ATTACH, ASK, GRANT, REQUEST, REVOKE, LOOKUP, ASK_AGAIN, GRANT_AGAIN] && |states| == 9
    ensures RevokesAt(states[4], REVOKE, 0, 2, SESSION, 2)
    ensures 0 in states[8].kids.bindings && SESSION in states[8].kids.bindings[0].authority.sessions
    ensures Clock(GRANT_AGAIN) == Some(101) && 101 < 2 + MAX_AUTHORITY_MS
  {
    hide IsRun;
    states, events := ThenAgain();
    ComesIsRun(states, events, With(Holding(AGAIN, THREE), map[], DENIED, 5, REPLIED + [GrantReply(0, OWNER, 0, 4)]));
  }

  lemma ComesFirst()
    ensures Comes([Empty], [], Empty)
  {
    RunBegins();
  }

  lemma ComesIsRun(states: seq<Broker>, events: seq<Event>, s: Broker)
    requires Comes(states, events, s)
    ensures IsRun(states, events) && |states| == |events| + 1 && states[|events|] == s
  {
  }

  /** The new id is remembered and the expired tombstone gone. */
  lemma Granting(tombstones: map<SessionId, int>, ids: map<RequestId, int>, id: RequestId, now: int, all: map<RequestId, int>)
    requires id !in ids && |ids| < MAX_RECORDS && Live(ids, now) == ids && Live(tombstones, now) == map[]
    requires all == ids[id := now + MAX_AUTHORITY_MS]
    ensures Admit(Bare(tombstones, ids), id, true, now) == (Bare(map[], all), true)
  {
    AdmitIds(tombstones, map[], ids, id, now);
  }
}
