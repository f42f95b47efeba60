/** The broker's private helpers on a binding's session authority, in place: each method is
    proved against the function of `SessionAuthority` that the invariants are proved about. */
module SessionBinding {
  import opened Identifiers
  import opened SessionAuthority

  /** Removing grants one at a time removes them together. */
  lemma RemoveGrantsInTurn(a: Authority, gone: set<SessionId>, session: SessionId)
    ensures RemoveGrant(RemoveGrants(a, gone), session) == RemoveGrants(a, gone + {session})
  {
    var b := RemoveGrants(a, gone);
    assert b.sessions - {session} == a.sessions - (gone + {session});
    var first := set id | id in a.sessions && id in gone :: a.sessions[id].owner;
    var second := set id | id in b.sessions && id in {session} :: b.sessions[id].owner;
    var both := set id | id in a.sessions && id in gone + {session} :: a.sessions[id].owner;
    forall o ensures o in both <==> o in first || o in second {
      if o in both {
        var id :| id in a.sessions && id in gone + {session} && a.sessions[id].owner == o;
        if id !in gone { assert id in b.sessions && b.sessions[id].owner == o; }
      }
      if o in second { assert session in a.sessions && a.sessions[session].owner == o; }
    }
    OwnersWithout(b.sessions, session);
  }

  lemma OwnersWithout(sessions: map<SessionId, Grant>, session: SessionId)
    ensures var own := set id | id in sessions && id in {session} :: sessions[id].owner;
            Owners(sessions) - own <= Owners(sessions - {session}) <= Owners(sessions)
  {
    var own := set id | id in sessions && id in {session} :: sessions[id].owner;
    forall o | o in Owners(sessions) && o !in own ensures o in Owners(sessions - {session}) {
      var id :| id in sessions && sessions[id].owner == o;
      assert id != session;
      assert (sessions - {session})[id].owner == o;
    }
    forall o | o in Owners(sessions - {session}) ensures o in Owners(sessions) {
      var id :| id in sessions - {session} && (sessions - {session})[id].owner == o;
      assert sessions[id].owner == o;
    }
  }

  lemma RemoveNothing(a: Authority, gone: set<SessionId>)
    requires gone !! a.sessions.Keys
    ensures RemoveGrants(a, gone) == a
  {
    assert a.sessions - gone == a.sessions;
  }

  class SessionBinding {
    const role: Role
    const verifier: bool
    const staticUsers: set<UserId>
    var users: set<UserId>
    var sessions: map<SessionId, Grant>
    var sessionTombstones: map<SessionId, int>
    var authorityRequestIds: map<RequestId, int>
    var authorityClosed: bool

    constructor (role: Role, authorizedUsers: set<UserId>, hasVerifier: bool)
      ensures Value() == Authority(role, role == Api && hasVerifier, authorizedUsers, authorizedUsers, map[], map[], map[], false)
      ensures AuthorityInv(Value())
    {
      this.role, this.verifier := role, role == Api && hasVerifier;
      staticUsers, users := authorizedUsers, authorizedUsers;
      sessions, sessionTombstones, authorityRequestIds, authorityClosed := map[], map[], map[], false;
      new;
      assert Owners(map[]) == {};
    }

    function Value(): Authority
      reads this
    {
      Authority(role, verifier, staticUsers, users, sessions, sessionTombstones, authorityRequestIds, authorityClosed)
    }

    /** Whether some grant of another session still names this owner. */
    method HasGrantFor(owner: UserId) returns (found: bool)
      ensures found <==> owner in Owners(sessions)
    {
      var rest := sessions.Keys;
      found := false;
      while rest != {} && !found
        invariant rest <= sessions.Keys
        invariant found ==> owner in Owners(sessions)
        invariant !found ==> forall id | id in sessions.Keys - rest :: sessions[id].owner != owner
        decreases rest
      {
        var id := Next(rest);
        rest := rest - {id};
        found := sessions[id].owner == owner;
      }
    }

    method RemoveSessionGrant(session: SessionId)
      modifies this`users, this`sessions
      ensures Value() == RemoveGrant(old(Value()), session)
    {
      if session !in sessions {
        RemoveNothing(Value(), {session});
        return;
      }
      var owner := sessions[session].owner;
      sessions := sessions - {session};
      var others := HasGrantFor(owner);
      assert (set id | id in old(sessions) && id in {session} :: old(sessions)[id].owner) == {owner};
      if owner !in staticUsers && !others {
        users := users - {owner};
      }
    }

    /** Drop what has expired by `now`. */
    method PruneSessionAuthority(now: int)
      modifies this`users, this`sessions, this`sessionTombstones, this`authorityRequestIds
      ensures Value() == Prune(old(Value()), now)
      ensures OnlyExpires(old(Value()), Value(), now)
    {
      PruneOnlyExpires(Value(), now);
      sessionTombstones := DropExpired(sessionTombstones, now);
      authorityRequestIds := DropExpired(authorityRequestIds, now);
      ghost var a := Value();
      RemoveNothing(a, {});
      ghost var gone: set<SessionId> := {};
      var rest := sessions.Keys;
      while rest != {}
        invariant rest <= a.sessions.Keys && rest !! gone
        invariant gone == Expired(a.sessions, now) - rest
        invariant Value() == RemoveGrants(a, gone)
        decreases rest
      {
        var id := Next(rest);
        rest := rest - {id};
        if sessions[id].expiresAt <= now {
          RemoveGrantsInTurn(a, gone, id);
          gone := gone + {id};
          RemoveSessionGrant(id);
        }
      }
      assert gone == Expired(a.sessions, now);
    }

    static method DropExpired(records: map<int, int>, now: int) returns (live: map<int, int>)
      ensures live == Live(records, now)
      ensures forall k :: k in live <==> k in records && records[k] > now
      ensures forall k | k in live :: live[k] == records[k]
    {
      live := records;
      var rest := records.Keys;
      while rest != {}
        invariant rest <= records.Keys
        invariant live == map k | k in records && (k in rest || records[k] > now) :: records[k]
        decreases rest
      {
        var k := Next(rest);
        rest := rest - {k};
        if records[k] <= now { live := live - {k}; }
      }
    }

    method CloseSessionAuthority()
      modifies this`users, this`sessions, this`authorityClosed
      ensures Value() == Close(old(Value()))
    {
      authorityClosed := true;
      ghost var a := Value();
      RemoveNothing(a, {});
      ghost var gone: set<SessionId> := {};
      var rest := sessions.Keys;
      while rest != {}
        invariant rest <= a.sessions.Keys && gone == a.sessions.Keys - rest
        invariant Value() == RemoveGrants(a, gone)
        decreases rest
      {
        var id := Next(rest);
        rest := rest - {id};
        RemoveGrantsInTurn(a, gone, id);
        gone := gone + {id};
        RemoveSessionGrant(id);
      }
      assert gone == a.sessions.Keys;
    }

    method TombstoneSession(session: SessionId, until: int, now: int)
      modifies this`users, this`sessions, this`sessionTombstones, this`authorityRequestIds, this`authorityClosed
      ensures Value() == Tombstone(old(Value()), session, until, now)
    {
      PruneSessionAuthority(now);
      if session !in sessionTombstones && |sessionTombstones| >= MAX_RECORDS {
        CloseSessionAuthority();
        return;
      }
      sessionTombstones := sessionTombstones[session := Max(until, now + 1)];
    }

    method RememberAuthorityRequest(id: RequestId, now: int) returns (remembered: bool)
      modifies this`users, this`sessions, this`sessionTombstones, this`authorityRequestIds, this`authorityClosed
      ensures (Value(), remembered) == Remember(old(Value()), id, now)
      ensures remembered <==> !(id in old(authorityRequestIds) && old(authorityRequestIds)[id] > now)
                              && |Fresh(old(authorityRequestIds), now)| < MAX_RECORDS
      ensures remembered ==> id in authorityRequestIds && authorityRequestIds[id] == now + MAX_AUTHORITY_MS
    {
      hide Prune, Fresh, FreshGrants, Close;
      PruneIsFresh(Value(), now);
      PruneSessionAuthority(now);
      if id in authorityRequestIds { return false; }
      if |authorityRequestIds| >= MAX_RECORDS {
        CloseSessionAuthority();
        return false;
      }
      authorityRequestIds := authorityRequestIds[id := now + MAX_AUTHORITY_MS];
      return true;
    }

    /** The guard at the head of `handleOwnerAuthority`. */
    method AdmitAuthorityMessage(id: RequestId, capabilityOk: bool, now: int) returns (admitted: bool)
      modifies this`users, this`sessions, this`sessionTombstones, this`authorityRequestIds, this`authorityClosed
      ensures (Value(), admitted) == Admit(old(Value()), id, capabilityOk, now)
    {
      if authorityClosed || role != Api || !capabilityOk { return false; }
      admitted := RememberAuthorityRequest(id, now);
    }

    method HandleOwnerRevoke(id: RequestId, session: SessionId, capabilityOk: bool, now: int)
      requires AuthorityInv(Value())
      modifies this`users, this`sessions, this`sessionTombstones, this`authorityRequestIds, this`authorityClosed
      ensures Value() == Revoke(old(Value()), id, session, capabilityOk, now)
      ensures AuthorityInv(Value()) && (old(authorityClosed) ==> authorityClosed)
    {
      RevokeKeeps(Value(), id, session, capabilityOk, now);
      var admitted := AdmitAuthorityMessage(id, capabilityOk, now);
      if !admitted { return; }
      TombstoneSession(session, now + MAX_AUTHORITY_MS, now);
      RemoveSessionGrant(session);
    }

    /** The rest of a grant request whose session has been verified and found installable. */
    method InstallGrant(m: GrantRequest, now: int, newId: GrantId) returns (outcome: GrantOutcome)
      requires AuthorityInv(Value()) && MayInstall(Value(), m, Active, now)
      modifies this`users, this`sessions, this`sessionTombstones, this`authorityRequestIds, this`authorityClosed
      ensures (Value(), outcome) == Install(old(Value()), m, now, newId)
      ensures GoodOutcome(old(users), m, Value(), outcome)
    {
      hide GoodOutcome, AuthorityInv, Prune;
      InstallKeeps(Value(), m, now, newId);
      PruneSessionAuthority(now);
      if m.session in sessions {
        var existing := sessions[m.session];
        if existing.owner != m.owner || existing.tokenHash != m.tokenHash || existing.expiresAt > m.expiresAt {
          return Denied;
        }
        if existing.expiresAt == m.expiresAt { return Repeated(existing.grantId); }
      }
      if m.session !in sessions && |sessions| >= MAX_RECORDS {
        CloseSessionAuthority();
        return Denied;
      }
      RemoveSessionGrant(m.session);
      sessions := sessions[m.session := Grant(m.owner, m.tokenHash, m.expiresAt, newId)];
      users := users + {m.owner};
      return Installed(newId);
    }

    /** A grant's timer fires. */
    method ExpireGrant(session: SessionId, until: int, now: int)
      requires AuthorityInv(Value())
      modifies this`users, this`sessions, this`sessionTombstones, this`authorityRequestIds, this`authorityClosed
      ensures Value() == Expire(old(Value()), session, until, now)
      ensures AuthorityInv(Value()) && session !in sessions && (old(authorityClosed) ==> authorityClosed)
    {
      ExpireKeeps(Value(), session, until, now);
      RemoveSessionGrant(session);
      TombstoneSession(session, until, now);
    }

    /** What `requestIsAuthorized` does with the answer of a session lookup. */
    method ApplyVerification(session: SessionId, until: int, v: Verification, now: int)
      requires AuthorityInv(Value())
      modifies this`users, this`sessions, this`sessionTombstones, this`authorityRequestIds, this`authorityClosed
      ensures Value() == Recheck(old(Value()), session, until, v, now)
      ensures AuthorityInv(Value()) && (old(authorityClosed) ==> authorityClosed)
    {
      RecheckKeeps(Value(), session, until, v, now);
      if v == Inactive {
        TombstoneSession(session, until, now);
        RemoveSessionGrant(session);
      } else if v == Superseded {
        RemoveSessionGrant(session);
      }
    }
  }
}
