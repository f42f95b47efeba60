/** Runs of the broker that go on step by step, and what single steps mean for keys and children. */
module BrokerSteps {
  import opened Identifiers
  import opened SessionAuthority
  import opened VaultBarrier
  import opened VaultCalls
  import opened VaultDrains
  import opened VaultSafety
  import opened VaultRuns
  import opened VaultTheorems
  import opened VaultSessions
  import opened VaultRequests

  // ---------------------------------------------------------------- runs

  /** The events lead from the start to `s`. */
  ghost predicate RunTo(states: seq<Broker>, events: seq<Event>, s: Broker) {
    IsRun(states, events) && states[|events|] == s
  }

  lemma RunBegins()
    ensures RunTo([Empty], [], Empty)
  {
  }

  lemma RunGoesOn(states: seq<Broker>, events: seq<Event>, s: Broker, e: Event)
    requires RunTo(states, events, s) && Enabled(s, e)
    ensures RunTo(states + [Apply(s, e)], events + [e], Apply(s, e))
  {
    hide Apply, Enabled;
    var (more, steps) := (states + [Apply(s, e)], events + [e]);
    forall i | 0 <= i < |steps| ensures Enabled(more[i], steps[i]) && more[i + 1] == Apply(more[i], steps[i]) {
      if i < |events| { assert more[i] == states[i] && more[i + 1] == states[i + 1] && steps[i] == events[i]; }
    }
  }

  lemma RunIsSafe(states: seq<Broker>, events: seq<Event>, s: Broker)
    requires RunTo(states, events, s)
    ensures Inv(s)
  {
    hide Enabled, Apply, Inv, Grows;
    RunKeeps(states, events, |events|, |events|);
  }

  // ---------------------------------------------------------------- what the invariant means

  /** Every registered child has its binding, and every live child with a capability is registered;
      whatever a binding has yet to acknowledge is a wait of its own. */
  ghost predicate ChildrenAgree(k: Kids) {
    && (forall c | c in k.children :: k.children[c] in k.bindings && k.bindings[k.children[c]].child == c)
    && (forall b | b in k.bindings :: LiveIsRegistered(k, b))
    && (forall b, l | b in k.bindings && l in k.bindings[b].lockAcks :: l.1 == b && l.0 in k.waits)
  }

  /** Contained users have no key, and the depth counts the calls that have not returned. */
  ghost predicate CallsAgree(c: Calls) {
    && (forall u | u in c.contained :: u !in c.unlocked)
    && (forall u :: Get(c.depth, u) == |Pending(c.ops, u)|)
    && (forall u | u in c.tails :: c.tails[u] in Pending(c.ops, u))
  }

  lemma InvMeans(s: Broker)
    requires Inv(s)
    ensures ChildrenAgree(s.kids) && CallsAgree(s.calls)
  {
    hide Inv, LiveIsRegistered, Pending;
    forall b | b in s.kids.bindings ensures LiveIsRegistered(s.kids, b) { LiveAt(s, b); }
    forall u | u in s.calls.contained ensures u !in s.calls.unlocked { ContainedHasNoKey(s, u); }
    forall u ensures Get(s.calls.depth, u) == |Pending(s.calls.ops, u)| { DepthOf(s, u); }
    forall u | u in s.calls.tails ensures s.calls.tails[u] in Pending(s.calls.ops, u) { TailOf(s, u); }
    RegistryAndWaits(s);
  }

  lemma LiveAt(s: Broker, b: BindingId)
    requires Inv(s) && b in s.kids.bindings
    ensures LiveIsRegistered(s.kids, b)
  {
    hide Inv;
    GoodAt(s, b);
  }

  lemma RegistryAndWaits(s: Broker)
    requires Inv(s)
    ensures forall c | c in s.kids.children :: s.kids.children[c] in s.kids.bindings && s.kids.bindings[s.kids.children[c]].child == c
    ensures forall b, l | b in s.kids.bindings && l in s.kids.bindings[b].lockAcks :: l.1 == b && l.0 in s.kids.waits
  {
    hide CallInv, FrameInv, GoodBinding, GoodWait, CoverInv;
    forall b, l | b in s.kids.bindings && l in s.kids.bindings[b].lockAcks ensures l.1 == b && l.0 in s.kids.waits {
      assert GoodPending(s.calls.ops, s.kids.waits, b, l, s.kids.bindings[b].lockAcks[l]);
    }
  }

  lemma DepthIsPositive(s: Broker, u: UserId)
    requires Inv(s) && u in s.calls.depth
    ensures s.calls.depth[u] > 0
  {
    hide KidInv, FrameInv, OpsInv, EpochInv, GenInv, KeyInv;
  }

  lemma CountIsPositive(s: Broker, b: BindingId, u: UserId)
    requires Inv(s) && b in s.kids.bindings && u in s.kids.bindings[b].inFlight
    ensures s.kids.bindings[b].inFlight[u] > 0
  {
    hide CallInv, KidInv;
  }

  // ---------------------------------------------------------------- calls and sections

  /** From the call of `lock` on, every pending cache of the user is outdated and no key is active. */
  lemma LockMeans(s: Broker, u: UserId)
    requires Inv(s)
    ensures var c := LockCall(s.calls, u);
            && (forall id | id in c.ops && c.ops[id].user == u && c.ops[id].kind.Cache? :: Outdated(c, id))
            && (forall now: int :: !ActiveKey(c, u, now))
  {
    hide Inv;
    var c := LockCall(s.calls, u);
    forall id | id in c.ops && c.ops[id].user == u && c.ops[id].kind.Cache? ensures Outdated(c, id) {
      assert id in s.calls.ops && c.ops[id] == s.calls.ops[id];
      EpochOf(s, id);
    }
  }

  /** A child that may act for the user, or is being served the user's state. */
  predicate MayHold(s: Broker, u: UserId, b: BindingId) {
    && b in s.kids.bindings && Registered(s.kids.children, b, s.kids.bindings[b])
    && (u in s.kids.bindings[b].authority.users
        || exists f | f in s.frames.requests ::
             s.frames.requests[f].binding == b && s.frames.requests[f].user == u && s.frames.requests[f].check.InState?)
  }

  /** These are the children a drain waits for. */
  lemma ExposedExactly(s: Broker, u: UserId)
    requires Inv(s)
    ensures forall b :: b in ExposedTo(s.kids.bindings, s.kids.children, u) <==> MayHold(s, u, b)
  {
    hide CallInv, KidInv;
    forall b | b in s.kids.bindings
      ensures Get(s.kids.bindings[b].inFlight, u) > 0 <==> Inside(s.frames.requests, b, u) != {}
    {
      EmptyIsZero(Inside(s.frames.requests, b, u));
    }
    forall b ensures Inside(s.frames.requests, b, u) != {} <==>
                     exists f | f in s.frames.requests ::
                       s.frames.requests[f].binding == b && s.frames.requests[f].user == u && s.frames.requests[f].check.InState?
    {
      InsideSome(s.frames.requests, b, u);
    }
  }

  lemma EmptyIsZero(frames: set<int>)
    ensures |frames| > 0 <==> frames != {}
  {
  }

  lemma InsideSome(requests: map<int, Request>, b: BindingId, u: UserId)
    ensures Inside(requests, b, u) != {} <==>
            exists f | f in requests :: requests[f].binding == b && requests[f].user == u && requests[f].check.InState?
  {
    if f :| f in requests && requests[f].binding == b && requests[f].user == u && requests[f].check.InState? {
      assert f in Inside(requests, b, u);
    } else if Inside(requests, b, u) != {} {
      var g := Element(Inside(requests, b, u));
      assert g in Inside(requests, b, u);
    }
  }

  lemma RecipientsAre(k: Kids, u: UserId)
    ensures forall b :: b in Recipients(k.bindings, k.children, u)
                        <==> b in k.bindings && Registered(k.children, b, k.bindings[b]) && u in k.bindings[b].authority.users
  {
  }

  /** A section that drains drains alone, with a generation above every earlier one of the user. */
  lemma SectionMeans(s: Broker, id: OpId, reached: set<BindingId>)
    requires Inv(s) && CanStart(s.calls, id) && Inv(SectionStart(s, id, reached))
    ensures var (t, op) := (SectionStart(s, id, reached), s.calls.ops[id]);
            && id in t.calls.ops && (t.calls.ops[id].stage == Draining <==> !Outdated(s.calls, id)) && t.calls.ops[id].user == op.user
            && (forall a | a in s.calls.ops && s.calls.ops[a].user == op.user :: s.calls.ops[a].stage != Draining)
            && (t.calls.ops[id].stage == Draining ==>
                  && id in t.kids.waits && t.kids.waits[id].Keys == ExposedTo(s.kids.bindings, s.kids.children, op.user)
                  && t.calls.drains == s.calls.drains + [Drain(op.user, t.calls.ops[id].generation, id)]
                  && forall d | d in s.calls.drains && d.user == op.user :: d.generation < t.calls.ops[id].generation)
            && (t.calls.ops[id].stage != Draining ==> t.kids == s.kids && t.calls.drains == s.calls.drains)
  {
    hide Inv, SectionStart, SendLocks, ExposedTo, Outdated, CanStart;
    SectionCases(s, id, reached);
    StartsAlone(s, id);
    var t := SectionStart(s, id, reached);
    CanStartQueued(s.calls, id);
    if !Outdated(s.calls, id) {
      StartWaits(s, id, reached);
      DrainsIncrease(t);
      forall d | d in s.calls.drains && d.user == s.calls.ops[id].user ensures d.generation < t.calls.ops[id].generation {
        var m :| 0 <= m < |s.calls.drains| && s.calls.drains[m] == d;
        assert t.calls.drains[m] == d && t.calls.drains[|s.calls.drains|].generation == t.calls.ops[id].generation;
      }
    }
  }

  lemma CanStartQueued(c: Calls, id: OpId)
    requires CanStart(c, id)
    ensures id in c.ops && c.ops[id].stage == Queued && (Outdated(c, id) ==> c.ops[id].kind.Cache?)
  {
  }

  /** What a barrier that completes promises of every child that may act for the user. */
  ghost predicate Covers(c: Calls, k: Kids, id: OpId)
    requires id in c.ops
  {
    var u := c.ops[id].user;
    forall b | b in ExposedTo(k.bindings, k.children, u) ::
      || Ack(b, (id, b), u, c.ops[id].generation) in k.acks
      || (c.ops[id].horizon <= b && u in k.bindings[b].authority.staticUsers)
  }

  lemma CompleteCovers(s: Broker, id: OpId)
    requires Inv(s) && DrainSettled(s, id) && BarrierComplete(s.kids, id)
    ensures Covers(s.calls, s.kids, id)
  {
    hide Inv;
    forall b | b in ExposedTo(s.kids.bindings, s.kids.children, s.calls.ops[id].user)
      ensures Ack(b, (id, b), s.calls.ops[id].user, s.calls.ops[id].generation) in s.kids.acks
              || (s.calls.ops[id].horizon <= b && s.calls.ops[id].user in s.kids.bindings[b].authority.staticUsers)
    {
      CoveredAt(s, id, b);
      if b in s.kids.waits[id] { SettledWait(s, id, b); }
    }
  }

  /** A cache's section ends with the key installed under the current epoch and generation, or with none;
      a lock's ends with none; and a barrier that failed contains the user. */
  lemma EndMeans(s: Broker, id: OpId, complete: bool, expiresAt: int, to: set<BindingId>)
    requires Inv(s) && id in s.calls.ops && s.calls.ops[id].stage == Draining
    ensures var (c, op, d) := (s.calls, s.calls.ops[id], SectionEnd(s.calls, id, complete, expiresAt, to));
            && (op.user in d.contained <==> !complete)
            && (op.user in d.unlocked <==> op.kind.Cache? && Succeeds(c, id, complete))
            && (op.user in d.unlocked ==>
                  && d.unlocked[op.user] == InstalledKey(op.kind.unlock, Get(d.epochs, op.user), Get(d.generations, op.user), expiresAt)
                  && d.published == c.published + [Publication(op.user, Get(d.generations, op.user), to)])
            && (op.user !in d.unlocked ==> d.published == c.published)
  {
    hide Inv;
    if s.calls.ops[id].kind.Cache? { InstalledIsCurrent(s, id); }
  }

  lemma FailedEnd(c: Calls, id: OpId, expiresAt: int, to: set<BindingId>)
    requires id in c.ops
    ensures SectionEnd(c, id, false, expiresAt, to) == SectionEnd(c, id, false, 0, {})
    ensures forall complete :: c.ops[id].kind.Lock? ==> SectionEnd(c, id, complete, expiresAt, to) == SectionEnd(c, id, complete, 0, {})
  {
  }

  // ---------------------------------------------------------------- children

  /** An acknowledgement counts only for a wait of this very child, user and generation. */
  lemma AckMeans(s: Broker, child: Child, lockId: LockId, owner: UserId, generation: nat, genuine: bool)
    requires Inv(s)
    ensures var k := AckMessage(s.kids, child, lockId, owner, generation, genuine);
            if genuine && Known(s.kids, child) && lockId.1 == s.kids.children[child] && lockId.0 in s.calls.ops
               && owner == s.calls.ops[lockId.0].user && generation == s.calls.ops[lockId.0].generation
               && Waiting(s.kids, lockId.0, lockId.1, AwaitAck)
            then Waiting(k, lockId.0, lockId.1, Acked) && k.acks == s.kids.acks + {Ack(lockId.1, lockId, owner, generation)}
            else k == s.kids
  {
    hide CallInv, FrameInv, KidInv;
    if Waiting(s.kids, lockId.0, lockId.1, AwaitAck) { KnownWait(s.calls.ops, s.kids, lockId.0, lockId.1); }
    if Known(s.kids, child) && lockId in s.kids.bindings[s.kids.children[child]].lockAcks {
      KnownPending(s.calls.ops, s.kids, s.kids.children[child], lockId);
    }
  }

  /** A binding out of the registry has no authority, and nothing awaits its acknowledgement. */
  ghost predicate Gone(k: Kids, b: BindingId) {
    && b in k.bindings && !Registered(k.children, b, k.bindings[b]) && k.bindings[b].authority.closed
    && forall id | id in k.waits && b in k.waits[id] :: k.waits[id][b] != AwaitAck
  }

  lemma UnregisteredIsGone(s: Broker, b: BindingId)
    requires Inv(s) && b in s.kids.bindings && !Registered(s.kids.children, b, s.kids.bindings[b])
    ensures Gone(s.kids, b)
  {
    hide Inv;
    GoodAt(s, b);
    forall id | id in s.kids.waits && b in s.kids.waits[id] ensures s.kids.waits[id][b] != AwaitAck { SettledWait(s, id, b); }
  }

  // ---------------------------------------------------------------- grants and replies

  lemma NothingPending(s: Broker, u: UserId)
    requires Inv(s) && Get(s.calls.depth, u) == 0
    ensures Pending(s.calls.ops, u) == {}
  {
    hide Inv, Pending;
    DepthOf(s, u);
  }

  /** The key of this reply came from an unlock since which nobody called `lock` for the user. */
  ghost predicate NoLockSince(states: seq<Broker>, events: seq<Event>, i: nat, r: Reply) {
    exists k: nat | k < i ::
      && i < |events| < |states| && events[k] == OnOp(StartUnlock(r.user)) && states[k].calls.nextUnlock == r.key.unlock
      && forall j | k <= j < i :: !Locks(states[j], events[j], r.user)
  }

  lemma ReplyMeans(states: seq<Broker>, events: seq<Event>, i: nat, r: Reply)
    requires IsRun(states, events) && i < |events| && Replies(states[i], states[i + 1], r)
    ensures NoLockSince(states, events, i, r)
  {
    hide IsRun, Locks, Replies;
    RunLength(states, events);
    var k := NoLockSinceUnlock(states, events, i, r);
  }

  // ---------------------------------------------------------------- what the events of the class mean

  /** A section's start does not look at the frames. */
  lemma SectionFrames(s: Broker, id: OpId, reached: set<BindingId>)
    requires CanStart(s.calls, id)
    ensures id in s.calls.ops
    ensures var t := SectionStart(Broker(s.calls, s.kids, Empty.frames), id, reached);
            SectionStart(s, id, reached) == Broker(t.calls, t.kids, s.frames)
  {
    hide SendLocks, LogDrain, TakeGeneration;
  }

  lemma EndOfLock(c: Calls, id: OpId, complete: bool, expiresAt: int, to: set<BindingId>)
    requires id in c.ops && c.ops[id].kind.Lock?
    ensures SectionEnd(c, id, complete, expiresAt, to) == SectionEnd(c, id, complete, 0, {})
  {
  }

  lemma LockCounts(c: Calls, u: UserId)
    ensures Get(LockCall(c, u).epochs, u) == Get(c.epochs, u) + 1 && Get(LockCall(c, u).depth, u) > 0
  {
  }

  lemma CacheCounts(s: Broker, n: int)
    requires Inv(s) && CanCache(s.calls, n)
    ensures var (d, unlock) := (CacheCall(s.calls, n), s.calls.unlocks[n]);
            && n in d.unlocks && d.unlocks[n] == unlock.(cached := true)
            && (d.ops != s.calls.ops <==> Get(d.epochs, unlock.user) == unlock.epoch)
  {
    hide KidInv, FrameInv, DepthInv, EpochInv, GenInv, KeyInv;
    assert s.calls.nextOp !in s.calls.ops;
  }

  lemma ReturnMeans(c: Calls, id: OpId)
    requires id in c.ops
    ensures OpReturn(c, id).unlocked == c.unlocked
  {
  }

  lemma ReleaseUnregisters(k: Kids, b: BindingId)
    requires b in k.bindings
    ensures var r := Release(k, b);
            && b in r.bindings && !Registered(r.children, b, r.bindings[b]) && r.waits.Keys == k.waits.Keys
            && r.bindings[b].child == k.bindings[b].child && r.bindings[b].capabilitySent == k.bindings[b].capabilitySent
            && (forall c | c in r.children :: c in k.children && r.children[c] == k.children[c])
            && (Registered(k.children, b, k.bindings[b]) ==> k.bindings[b].child !in r.children)
  {
  }

  lemma ReleaseLeaves(s: Broker, id: OpId, b: BindingId)
    requires Inv(s) && Signalled(s.kids, id, b)
    ensures var r := SetWait(Release(s.kids, b), id, b, Wait.Released);
            b in r.bindings && !Registered(r.children, b, r.bindings[b]) && Waiting(r, id, b, Wait.Released)
  {
    hide Inv, Release;
    ReleaseUnregisters(s.kids, b);
  }

  lemma ObservedMeans(s: Broker, child: Child)
    requires Inv(s) && Known(s.kids, child)
    ensures var (b, r) := (s.kids.children[child], Release(s.kids, s.kids.children[child]));
            b in r.bindings && !Registered(r.children, b, r.bindings[b]) && child !in r.children
  {
    hide Inv, Release;
    RegistryAndWaits(s);
    ReleaseUnregisters(s.kids, s.kids.children[child]);
  }

  lemma SetWaitWaits(k: Kids, id: OpId, b: BindingId, w: Wait)
    requires id in k.waits && b in k.bindings
    ensures Waiting(SetWait(k, id, b, w), id, b, w)
  {
  }

  lemma SignalledFacts(k: Kids, id: OpId, b: BindingId)
    requires Signalled(k, id, b)
    ensures id in k.waits && b in k.waits[id] && b in k.bindings
  {
  }

  lemma CountsAreExact(s: Broker)
    requires Inv(s)
    ensures forall b, u | b in s.kids.bindings :: Get(s.kids.bindings[b].inFlight, u) == |Inside(s.frames.requests, b, u)|
  {
    hide CallInv, KidInv, Inside, Get;
  }

  /** What a resumed request that goes on a run comes to. */
  lemma AnswerNow(states: seq<Broker>, events: seq<Event>, s: Broker, f: int, fieldOk: bool, cryptoOk: bool, now: int) returns (k: nat)
    requires RunTo(states, events, s) && RequestEnabled(s, RequestResumes(f, fieldOk, cryptoOk, now))
    ensures var e := OnRequest(RequestResumes(f, fieldOk, cryptoOk, now));
            AnsweredRightly(states + [Apply(s, e)], events + [e], k, |events|, f, fieldOk, cryptoOk, now)
  {
    hide IsRun, AnsweredRightly, Apply, RequestEnabled;
    var e := OnRequest(RequestResumes(f, fieldOk, cryptoOk, now));
    var (more, steps) := (states + [Apply(s, e)], events + [e]);
    RunGoesOn(states, events, s, e);
    RunLength(states, events);
    RunLength(more, steps);
    assert steps[|events|] == e;
    k := AnsweredExactlyWhen(more, steps, |events|, f, fieldOk, cryptoOk, now);
  }

  lemma ConfirmedExactlyWhen(s: Broker, f: int, v: Verification, now: int)
    requires RequestAt(s, f) && s.frames.requests[f].check.Verifying?
    ensures var r := s.frames.requests[f];
            StillAuthorized(s, f, v, now)
            <==> ConfirmedAt(s, OnRequest(RequestIsVerified(f, v, now)), f, r.binding, r.check.session, r.check.grant)
  {
  }

  /** What a reply that goes on a run means. */
  lemma ReplyNow(states: seq<Broker>, events: seq<Event>, s: Broker, e: Event, r: Reply)
    requires RunTo(states, events, s) && Enabled(s, e) && Replies(s, Apply(s, e), r)
    ensures r.key.epoch == Get(s.calls.epochs, r.user) && r.generation == r.key.generation == Get(s.calls.generations, r.user)
    ensures Pending(s.calls.ops, r.user) == {} && r.user !in s.calls.contained
    ensures e.OnRequest? && e.request.RequestResumes? && r.key.expiresAt > e.request.now
    ensures NoLockSince(states + [Apply(s, e)], events + [e], |events|, r)
  {
    hide IsRun, Replies, NoLockSince, Pending, Apply, Enabled;
    var (more, steps) := (states + [Apply(s, e)], events + [e]);
    RunGoesOn(states, events, s, e);
    RunLength(states, events);
    RunLength(more, steps);
    assert more[|events|] == s && more[|events| + 1] == Apply(s, e) && steps[|events|] == e;
    ReplyIsCurrent(more, steps, |events|, r);
    ReplyMeans(more, steps, |events|, r);
  }

  lemma RevokeBars(a: Authority, id: RequestId, session: SessionId, genuine: bool, now: int)
    requires AuthorityInv(a)
    ensures IsNew(a, id, genuine, now) ==>
              var c := Revoke(a, id, session, genuine, now);
              session !in c.sessions && Barred(c, session, now + MAX_AUTHORITY_MS) && Remembered(c, id, now + MAX_AUTHORITY_MS)
  {
    hide AuthorityInv, Revoke, Barred, Remembered, IsNew;
    if IsNew(a, id, genuine, now) {
      RevokeKeeps(a, id, session, genuine, now);
      NewRevokeBars(a, id, session, genuine, now);
      BarredHasNone(Revoke(a, id, session, genuine, now), session, now + MAX_AUTHORITY_MS);
    }
  }

  lemma FreshBinding(s: Broker)
    requires Inv(s)
    ensures s.kids.nextBinding !in s.kids.bindings
  {
    hide CallInv, FrameInv, KidInv;
    NewBinding(s.calls.ops, s.kids);
  }

  lemma SentLoading(s: Broker, b: BindingId, loaded: bool, connected: bool)
    requires Inv(s) && Attaching(s.kids, b, Loading)
    ensures !s.kids.bindings[b].capabilitySent
    ensures var k := AttachLoaded(s.kids, b, loaded, connected);
            && b in k.bindings
            && (k.bindings[b].capabilitySent <==> loaded && LiveAttachment(s.kids, b, connected))
            && (!k.bindings[b].capabilitySent ==> !Registered(k.children, b, k.bindings[b]))
            && (k.bindings[b].capabilitySent ==> LiveAttachment(k, b, connected))
  {
    hide Inv, Release;
    GoodAt(s, b);
    ReleaseUnregisters(s.kids, b);
  }

  lemma DeliveredKeeps(k: Kids, b: BindingId, delivered: bool, connected: bool, more: bool)
    requires Attaching(k, b, Offered)
    ensures var r := AttachDelivered(k, b, delivered, connected, more);
            && b in r.bindings
            && r.bindings[b].attachment == (if delivered && LiveAttachment(k, b, connected) then (if more then Offered else Attached) else Abandoned)
            && (delivered && LiveAttachment(k, b, connected) ==> Registered(r.children, b, r.bindings[b]))
  {
    hide Release;
    ReleaseUnregisters(k, b);
  }

  lemma SettledFacts(s: Broker, id: OpId)
    requires DrainSettled(s, id)
    ensures id in s.calls.ops && s.calls.ops[id].stage == Draining && id in s.kids.waits
  {
  }

  lemma FinishMeans(s: Broker, id: OpId, expiresAt: int)
    requires Inv(s) && DrainSettled(s, id)
    ensures var (op, complete) := (s.calls.ops[id], BarrierComplete(s.kids, id));
            var (u, to) := (op.user, Recipients(s.kids.bindings, s.kids.children, op.user));
            var d := SectionEnd(s.calls, id, complete, expiresAt, to);
            && d.generations == s.calls.generations && d.epochs == s.calls.epochs && id in d.ops && d.ops[id] == op.(stage := Done, outcome := d.ops[id].outcome)
            && (complete ==> Covers(d, s.kids, id))
            && (u in d.contained <==> !complete)
            && (u in d.unlocked <==> op.kind.Cache? && complete && Get(d.epochs, u) == op.kind.epoch)
            && (u in d.unlocked ==>
                  && d.unlocked[u] == InstalledKey(op.kind.unlock, Get(d.epochs, u), Get(d.generations, u), expiresAt)
                  && d.published == s.calls.published + [Publication(u, Get(d.generations, u), to)])
            && (u !in d.unlocked ==> d.published == s.calls.published)
  {
    hide Inv, BarrierComplete, Recipients, SectionEnd, Covers;
    var complete := BarrierComplete(s.kids, id);
    var to := Recipients(s.kids.bindings, s.kids.children, s.calls.ops[id].user);
    EndMeans(s, id, complete, expiresAt, to);
    EndOutcome(s.calls, id, complete, expiresAt, to);
    if complete {
      CompleteCovers(s, id);
      CoversAfter(s.calls, SectionEnd(s.calls, id, complete, expiresAt, to), s.kids, id);
    }
  }

  lemma CoversAfter(c: Calls, d: Calls, k: Kids, id: OpId)
    requires id in c.ops && id in d.ops && Covers(c, k, id)
    requires d.ops[id] == c.ops[id].(stage := d.ops[id].stage, outcome := d.ops[id].outcome)
    ensures Covers(d, k, id)
  {
  }
}
