/** The desktop key broker as a state machine. Code between two awaits is one event;
    any pending call, timer, child message or child exit may take the next step. */
module VaultBarrier {
  import opened Identifiers
  import opened SessionAuthority

  // ---------------------------------------------------------------- state

  /** `Lock` keeps the epoch and generation it wrote when called; `Cache` the unlock it ends. */
  datatype Kind = Lock(epoch: nat, generation: nat) | Cache(unlock: int, epoch: nat)

  datatype Stage = Queued | Draining | Done | Returned

  /** One call of `lock` or `cache`. `prev` is the promise it chained on, `generation` the one
      it drains, `horizon` bounds the bindings that existed when the drain began, `outcome` is
      `barrierComplete` of a lock and `installed` of a cache. */
  datatype Op = Op(
    user: UserId, kind: Kind, prev: Option<OpId>, stage: Stage,
    generation: nat, horizon: BindingId, outcome: bool)

  /** A call of `unlock`, `initialize` or `unlockFromDevice`: the epoch read when it began. */
  datatype Unlock = Unlock(user: UserId, epoch: nat, cached: bool)

  datatype InstalledKey = InstalledKey(unlock: int, epoch: nat, generation: nat, expiresAt: int)

  /** One `waitForChildLock`. */
  datatype Wait = AwaitAck | Terminating | Killing | Acked | Released | Unproven

  datatype PendingAck = PendingAck(user: UserId, generation: nat)

  datatype Attachment = Loading | Offered | Attached | Abandoned

  datatype Binding = Binding(
    child: Child,
    authority: Authority,
    inFlight: map<UserId, nat>,
    lockAcks: map<LockId, PendingAck>,
    attachment: Attachment,
    capabilitySent: bool)

  datatype Operation = State | Encrypt | Decrypt | Rewrap

  datatype Check = Verifying(session: SessionId, grant: Grant) | Decided(authorized: bool) | InState

  datatype Request = Request(binding: BindingId, user: UserId, generation: nat, operation: Operation, check: Check)

  datatype PendingGrant = PendingGrant(binding: BindingId, request: GrantRequest, generation: nat)

  /** History, only ever appended to. */
  datatype Drain = Drain(user: UserId, generation: nat, op: OpId)
  datatype Publication = Publication(user: UserId, generation: nat, to: set<BindingId>)
  datatype Ack = Ack(binding: BindingId, lockId: LockId, user: UserId, generation: nat)
  datatype Reply = Reply(binding: BindingId, user: UserId, generation: nat, key: InstalledKey)
  datatype GrantReply = GrantReply(binding: BindingId, owner: UserId, generation: nat, grantId: GrantId)

  /** The calls of `lock`, `unlock` and `cache`, with the per-user maps they share. */
  datatype Calls = Calls(
    epochs: map<UserId, nat>,
    generations: map<UserId, nat>,
    depth: map<UserId, nat>,
    tails: map<UserId, OpId>,
    unlocked: map<UserId, InstalledKey>,
    contained: set<UserId>,
    ops: map<OpId, Op>,
    nextOp: OpId,
    unlocks: map<int, Unlock>,
    nextUnlock: int,
    drains: seq<Drain>,
    published: seq<Publication>)

  /** The children, their bindings (`children` is the registry, `bindings` the objects ever
      created) and what each drain waits for. */
  datatype Kids = Kids(
    children: map<Child, BindingId>,
    bindings: map<BindingId, Binding>,
    nextBinding: BindingId,
    waits: map<OpId, map<BindingId, Wait>>,
    exited: set<Child>,
    acks: set<Ack>)

  /** Grant and request handlers that are waiting, and the replies sent so far. */
  datatype Frames = Frames(
    grants: map<int, PendingGrant>,
    requests: map<int, Request>,
    nextFrame: int,
    replies: seq<Reply>,
    grantReplies: seq<GrantReply>)

  datatype Broker = Broker(calls: Calls, kids: Kids, frames: Frames)

  const Empty: Broker := Broker(
    Calls(map[], map[], map[], map[], map[], {}, map[], 0, map[], 0, [], []),
    Kids(map[], map[], 0, map[], {}, {}),
    Frames(map[], map[], 0, [], []))

  /** `map.get(u) ?? 0`. */
  function Get(m: map<UserId, nat>, u: UserId): nat { if u in m then m[u] else 0 }

  predicate Finished(op: Op) { op.stage == Done || op.stage == Returned }

  predicate Registered(children: map<Child, BindingId>, b: BindingId, binding: Binding) {
    binding.child in children && children[binding.child] == b
  }

  /** The bindings a drain for `u` has to wait for. */
  predicate Exposes(binding: Binding, u: UserId) {
    u in binding.authority.users || Get(binding.inFlight, u) > 0
  }

  function ExposedTo(bindings: map<BindingId, Binding>, children: map<Child, BindingId>, u: UserId): set<BindingId> {
    set b | b in bindings && Registered(children, b, bindings[b]) && Exposes(bindings[b], u)
  }

  /** The bindings `publishGeneration` sends to. */
  function Recipients(bindings: map<BindingId, Binding>, children: map<Child, BindingId>, u: UserId): set<BindingId> {
    set b | b in bindings && Registered(children, b, bindings[b]) && u in bindings[b].authority.users
  }

  predicate Settled(w: Wait) { w == Acked || w == Released || w == Unproven }

  // ---------------------------------------------------------------- lock and cache

  function PrevOf(tails: map<UserId, OpId>, u: UserId): Option<OpId> {
    if u in tails then Some(tails[u]) else None
  }

  /** The promise chaining shared by `lock` and `cache`. */
  function Enqueue(c: Calls, u: UserId, kind: Kind): Calls {
    var generation := if kind.Lock? then kind.generation else 0;
    c.(depth := c.depth[u := Get(c.depth, u) + 1],
       ops := c.ops[c.nextOp := Op(u, kind, PrevOf(c.tails, u), Queued, generation, 0, kind.Lock?)],
       tails := c.tails[u := c.nextOp],
       nextOp := c.nextOp + 1)
  }

  function LockCall(c: Calls, u: UserId): Calls {
    var epoch := Get(c.epochs, u) + 1;
    var generation := Get(c.generations, u) + 1;
    Enqueue(c.(epochs := c.epochs[u := epoch], generations := c.generations[u := generation]),
            u, Lock(epoch, generation))
  }

  function BeginUnlock(c: Calls, u: UserId): Calls {
    c.(unlocks := c.unlocks[c.nextUnlock := Unlock(u, Get(c.epochs, u), false)], nextUnlock := c.nextUnlock + 1)
  }

  predicate CanCache(c: Calls, n: int) { n in c.unlocks && !c.unlocks[n].cached }

  function CacheCall(c: Calls, n: int): Calls
    requires CanCache(c, n)
  {
    var unlock := c.unlocks[n];
    var d := c.(unlocks := c.unlocks[n := unlock.(cached := true)]);
    if Get(c.epochs, unlock.user) != unlock.epoch then d
    else Enqueue(d, unlock.user, Cache(n, unlock.epoch))
  }

  /** A section runs once the promise it chained on has settled. */
  predicate CanStart(c: Calls, id: OpId) {
    && id in c.ops && c.ops[id].stage == Queued
    && (c.ops[id].prev.Some? ==> c.ops[id].prev.value in c.ops && Finished(c.ops[c.ops[id].prev.value]))
  }

  /** The calls' part of a drain. */
  function LogDrain(c: Calls, id: OpId, generation: nat, horizon: BindingId): Calls
    requires id in c.ops
  {
    c.(ops := c.ops[id := c.ops[id].(stage := Draining, generation := generation, horizon := horizon)],
       drains := c.drains + [Drain(c.ops[id].user, generation, id)])
  }

  /** The synchronous part of `drainChildren`; `reached` are the bindings `safeSend` reached. */
  function SendLocks(k: Kids, id: OpId, u: UserId, generation: nat, reached: set<BindingId>): Kids {
    var exposed := ExposedTo(k.bindings, k.children, u);
    k.(bindings := map b | b in k.bindings ::
         if b in exposed && b in reached
         then k.bindings[b].(lockAcks := k.bindings[b].lockAcks[(id, b) := PendingAck(u, generation)])
         else k.bindings[b],
       waits := k.waits[id := map b | b in exposed :: if b in reached then AwaitAck else Terminating])
  }

  function StartDrain(s: Broker, id: OpId, generation: nat, reached: set<BindingId>): Broker
    requires id in s.calls.ops
  {
    s.(calls := LogDrain(s.calls, id, generation, s.kids.nextBinding),
       kids := SendLocks(s.kids, id, s.calls.ops[id].user, generation, reached))
  }

  /** A cache that goes on to drain takes the next generation and drops the old key first. */
  function TakeGeneration(c: Calls, u: UserId): Calls {
    c.(generations := c.generations[u := Get(c.generations, u) + 1], unlocked := c.unlocked - {u})
  }

  predicate Outdated(c: Calls, id: OpId)
    requires id in c.ops
  {
    c.ops[id].kind.Cache? && Get(c.epochs, c.ops[id].user) != c.ops[id].kind.epoch
  }

  function SectionStart(s: Broker, id: OpId, reached: set<BindingId>): Broker
    requires CanStart(s.calls, id)
  {
    var (c, op) := (s.calls, s.calls.ops[id]);
    if op.kind.Lock? then StartDrain(s, id, op.kind.generation, reached)
    else if Outdated(c, id) then s.(calls := c.(ops := c.ops[id := op.(stage := Done)]))
    else StartDrain(s.(calls := TakeGeneration(c, op.user)), id, Get(c.generations, op.user) + 1, reached)
  }

  /** The three ways a section can start. */
  lemma SectionCases(s: Broker, id: OpId, reached: set<BindingId>)
    requires CanStart(s.calls, id)
    ensures var (c, k, op) := (s.calls, s.kids, s.calls.ops[id]);
            var r := SectionStart(s, id, reached);
            && r.frames == s.frames
            && (op.kind.Lock? ==> r.calls == LogDrain(c, id, op.kind.generation, k.nextBinding)
                                  && r.kids == SendLocks(k, id, op.user, op.kind.generation, reached))
            && (Outdated(c, id) ==> r.calls == c.(ops := c.ops[id := op.(stage := Done)]) && r.kids == k)
            && (op.kind.Cache? && !Outdated(c, id) ==>
                  var generation := Get(c.generations, op.user) + 1;
                  r.calls == LogDrain(TakeGeneration(c, op.user), id, generation, k.nextBinding)
                  && r.kids == SendLocks(k, id, op.user, generation, reached))
  {
    hide SendLocks;
  }

  predicate DrainSettled(s: Broker, id: OpId) {
    && id in s.calls.ops && s.calls.ops[id].stage == Draining && id in s.kids.waits
    && forall b | b in s.kids.waits[id] :: Settled(s.kids.waits[id][b])
  }

  /** The result of `drainChildren`. */
  predicate BarrierComplete(k: Kids, id: OpId)
    requires id in k.waits
  {
    forall b | b in k.waits[id] :: k.waits[id][b] != Unproven
  }

  function Contain(contained: set<UserId>, u: UserId, complete: bool): set<UserId> {
    if complete then contained - {u} else contained + {u}
  }

  /** `barrierComplete` of a lock, `installed` of a cache. */
  predicate Succeeds(c: Calls, id: OpId, complete: bool)
    requires id in c.ops
  {
    complete && !Outdated(c, id)
  }

  /** The rest of a section once its drain has returned (`complete`), or has thrown; `to` are
      the bindings a publication reaches. */
  function SectionEnd(c: Calls, id: OpId, complete: bool, expiresAt: int, to: set<BindingId>): Calls
    requires id in c.ops
  {
    var (op, u) := (c.ops[id], c.ops[id].user);
    var d := c.(contained := Contain(c.contained, u, complete),
                ops := c.ops[id := op.(stage := Done, outcome := Succeeds(c, id, complete))]);
    if op.kind.Lock? then d.(unlocked := c.unlocked - {u})
    else if !Succeeds(c, id, complete) then d
    else d.(unlocked := c.unlocked[u := InstalledKey(op.kind.unlock, op.kind.epoch, op.generation, expiresAt)],
            published := c.published + [Publication(u, op.generation, to)])
  }

  /** The `finally` block. */
  function OpReturn(c: Calls, id: OpId): Calls
    requires id in c.ops
  {
    var u := c.ops[id].user;
    var depth := if u in c.depth then c.depth[u] else 1;
    c.(depth := if depth <= 1 then c.depth - {u} else c.depth[u := depth - 1],
       tails := if u in c.tails && c.tails[u] == id then c.tails - {u} else c.tails,
       ops := c.ops[id := c.ops[id].(stage := Returned)])
  }

  datatype OpEvent =
    | CallLock(user: UserId)
    | StartUnlock(user: UserId)
    | CallCache(unlock: int)
    | StartSection(op: OpId, reached: set<BindingId>)
    | Drained(op: OpId, expiresAt: int)
    | DrainThrew(op: OpId)
    | Return(op: OpId)

  predicate OpEnabled(s: Broker, e: OpEvent) {
    match e
    case CallLock(_) => true
    case StartUnlock(_) => true
    case CallCache(n) => CanCache(s.calls, n)
    case StartSection(id, _) => CanStart(s.calls, id)
    case Drained(id, _) => DrainSettled(s, id)
    case DrainThrew(id) => id in s.calls.ops && s.calls.ops[id].stage == Draining
    case Return(id) => id in s.calls.ops && s.calls.ops[id].stage == Done
  }

  function OpApply(s: Broker, e: OpEvent): Broker
    requires OpEnabled(s, e)
  {
    match e
    case CallLock(u) => s.(calls := LockCall(s.calls, u))
    case StartUnlock(u) => s.(calls := BeginUnlock(s.calls, u))
    case CallCache(n) => s.(calls := CacheCall(s.calls, n))
    case StartSection(id, reached) => SectionStart(s, id, reached)
    case Drained(id, expiresAt) =>
      s.(calls := SectionEnd(s.calls, id, BarrierComplete(s.kids, id), expiresAt,
                             Recipients(s.kids.bindings, s.kids.children, s.calls.ops[id].user)))
    case DrainThrew(id) => s.(calls := SectionEnd(s.calls, id, false, 0, {}))
    case Return(id) => s.(calls := OpReturn(s.calls, id))
  }

  // ---------------------------------------------------------------- children

  function SetWait(k: Kids, id: OpId, b: BindingId, w: Wait): Kids
    requires id in k.waits && b in k.bindings
  {
    k.(waits := k.waits[id := k.waits[id][b := w]],
       bindings := k.bindings[b := k.bindings[b].(lockAcks := k.bindings[b].lockAcks - {(id, b)})])
  }

  predicate Known(k: Kids, child: Child) { child in k.children && k.children[child] in k.bindings }

  /** A `lock-ack` message; `genuine` says that capability and role match. */
  function AckMessage(k: Kids, child: Child, lockId: LockId, owner: UserId, generation: nat, genuine: bool): Kids {
    if !Known(k, child) || !genuine then k
    else
      var b := k.children[child];
      var pending := k.bindings[b].lockAcks;
      if lockId !in pending || lockId.0 !in k.waits || pending[lockId] != PendingAck(owner, generation) then k
      else SetWait(k, lockId.0, b, Acked).(acks := k.acks + {Ack(b, lockId, owner, generation)})
  }

  predicate Waiting(k: Kids, id: OpId, b: BindingId, w: Wait) {
    id in k.waits && b in k.waits[id] && k.waits[id][b] == w && b in k.bindings
  }

  /** The child has been sent SIGTERM or SIGKILL. */
  predicate Signalled(k: Kids, id: OpId, b: BindingId) {
    Waiting(k, id, b, Terminating) || Waiting(k, id, b, Killing)
  }

  /** `releaseChild`: forget the binding, close its authority and settle its waits. */
  function Release(k: Kids, b: BindingId): Kids
    requires b in k.bindings
  {
    var binding := k.bindings[b];
    if !Registered(k.children, b, binding) then k
    else
      k.(children := k.children - {binding.child},
         bindings := k.bindings[b := binding.(authority := Close(binding.authority), lockAcks := map[])],
         waits := map id | id in k.waits ::
           if (id, b) in binding.lockAcks then k.waits[id][b := Released] else k.waits[id])
  }

  function Attach(k: Kids, child: Child, role: Role, users: set<UserId>, verifier: bool, connected: bool): Kids {
    if child in k.children || !connected || child in k.exited then k
    else
      var authority := Authority(role, role == Api && verifier, users, users, map[], map[], map[], false);
      k.(children := k.children[child := k.nextBinding],
         bindings := k.bindings[k.nextBinding := Binding(child, authority, map[], map[], Loading, false)],
         nextBinding := k.nextBinding + 1)
  }

  predicate Attaching(k: Kids, b: BindingId, a: Attachment) { b in k.bindings && k.bindings[b].attachment == a }

  function SetAttachment(k: Kids, b: BindingId, a: Attachment, sent: bool): Kids
    requires b in k.bindings
  {
    k.(bindings := k.bindings[b := k.bindings[b].(attachment := a, capabilitySent := k.bindings[b].capabilitySent || sent)])
  }

  /** `attachmentIsLive`. */
  predicate LiveAttachment(k: Kids, b: BindingId, connected: bool)
    requires b in k.bindings
  {
    Registered(k.children, b, k.bindings[b]) && connected && k.bindings[b].child !in k.exited
  }

  /** The protocol validators have loaded (or not): release, or send the capability. */
  function AttachLoaded(k: Kids, b: BindingId, loaded: bool, connected: bool): Kids
    requires Attaching(k, b, Loading)
  {
    if !loaded || !LiveAttachment(k, b, connected) then SetAttachment(Release(k, b), b, Abandoned, false)
    else SetAttachment(k, b, Offered, true)
  }

  /** One delivery callback of the capability or of a generation; `more` if another follows. */
  function AttachDelivered(k: Kids, b: BindingId, delivered: bool, connected: bool, more: bool): Kids
    requires Attaching(k, b, Offered)
  {
    if !delivered || !LiveAttachment(k, b, connected)
    then SetAttachment(if k.bindings[b].child in k.exited then Release(k, b) else k, b, Abandoned, false)
    else SetAttachment(k, b, if more then Offered else Attached, false)
  }

  /** Acknowledgements, exits and attachments of child processes. */
  datatype ChildEvent =
    | AckArrives(child: Child, lockId: LockId, user: UserId, generation: nat, genuine: bool)
    | AckTimesOut(op: OpId, binding: BindingId)
    | ExitIsProven(op: OpId, binding: BindingId)
    | ExitIsUnproven(op: OpId, binding: BindingId)
    | ChildExits(child: Child)
    | ExitIsObserved(child: Child)
    | CallAttach(child: Child, role: Role, users: set<UserId>, verifier: bool, connected: bool)
    | ValidatorsLoad(binding: BindingId, loaded: bool, connected: bool)
    | DeliveryEnds(binding: BindingId, delivered: bool, connected: bool, more: bool)

  predicate ChildEnabled(k: Kids, e: ChildEvent) {
    match e
    case AckArrives(_, _, _, _, _) => true
    case AckTimesOut(id, b) => Waiting(k, id, b, AwaitAck)
    case ExitIsProven(id, b) => Signalled(k, id, b) && k.bindings[b].child in k.exited
    case ExitIsUnproven(id, b) => Signalled(k, id, b) && k.bindings[b].child !in k.exited
    case ChildExits(_) => true
    case ExitIsObserved(c) => Known(k, c) && c in k.exited
    case CallAttach(_, _, _, _, _) => true
    case ValidatorsLoad(b, _, _) => Attaching(k, b, Loading)
    case DeliveryEnds(b, _, _, _) => Attaching(k, b, Offered)
  }

  function ChildApply(k: Kids, e: ChildEvent): Kids
    requires ChildEnabled(k, e)
  {
    match e
    case AckArrives(c, lockId, u, generation, genuine) => AckMessage(k, c, lockId, u, generation, genuine)
    case AckTimesOut(id, b) => SetWait(k, id, b, Terminating)
    case ExitIsProven(id, b) => SetWait(Release(k, b), id, b, Released)
    case ExitIsUnproven(id, b) => SetWait(k, id, b, if k.waits[id][b] == Terminating then Killing else Unproven)
    case ChildExits(c) => k.(exited := k.exited + {c})
    case ExitIsObserved(c) => Release(k, k.children[c])
    case CallAttach(c, role, users, verifier, connected) => Attach(k, c, role, users, verifier, connected)
    case ValidatorsLoad(b, loaded, connected) => AttachLoaded(k, b, loaded, connected)
    case DeliveryEnds(b, delivered, connected, more) => AttachDelivered(k, b, delivered, connected, more)
  }

  // ---------------------------------------------------------------- session authority

  function SetAuthority(k: Kids, b: BindingId, a: Authority): Kids
    requires b in k.bindings
  {
    k.(bindings := k.bindings[b := k.bindings[b].(authority := a)])
  }

  function GrantAdmit(s: Broker, b: BindingId, m: GrantRequest, genuine: bool, now: int): Broker
    requires b in s.kids.bindings
  {
    var (a, admitted) := Admit(s.kids.bindings[b].authority, m.requestId, genuine, now);
    s.(kids := SetAuthority(s.kids, b, a),
       frames := if admitted && MayVerify(a, m, now) && Get(s.calls.depth, m.owner) == 0
                 then AddGrant(s.frames, PendingGrant(b, m, Get(s.calls.generations, m.owner)))
                 else s.frames)
  }

  function AddGrant(f: Frames, g: PendingGrant): Frames {
    f.(grants := f.grants[f.nextFrame := g], nextFrame := f.nextFrame + 1)
  }

  predicate GrantAt(s: Broker, f: int) { f in s.frames.grants && s.frames.grants[f].binding in s.kids.bindings }

  predicate CanInstallGrant(s: Broker, f: int, v: Verification, now: int)
    requires GrantAt(s, f)
  {
    var g := s.frames.grants[f];
    var binding := s.kids.bindings[g.binding];
    && MayInstall(binding.authority, g.request, v, now)
    && Registered(s.kids.children, g.binding, binding)
    && Get(s.calls.generations, g.request.owner) == g.generation
    && Get(s.calls.depth, g.request.owner) == 0
  }

  function GrantVerified(s: Broker, f: int, v: Verification, now: int): Broker
    requires GrantAt(s, f)
  {
    var g := s.frames.grants[f];
    if !CanInstallGrant(s, f, v, now) then s.(frames := s.frames.(grants := s.frames.grants - {f}))
    else
      var (a, outcome) := Install(s.kids.bindings[g.binding].authority, g.request, now, s.frames.nextFrame);
      s.(kids := SetAuthority(s.kids, g.binding, a),
         frames := s.frames.(grants := s.frames.grants - {f}, nextFrame := s.frames.nextFrame + 1,
                             grantReplies := s.frames.grantReplies + GrantReplies(g, outcome)))
  }

  /** The success reply, if any, carries the generation read at admission. */
  function GrantReplies(g: PendingGrant, outcome: GrantOutcome): seq<GrantReply> {
    match outcome
    case Denied => []
    case Repeated(id) => [GrantReply(g.binding, g.request.owner, g.generation, id)]
    case Installed(id) => [GrantReply(g.binding, g.request.owner, g.generation, id)]
  }

  predicate HasSession(k: Kids, b: BindingId, session: SessionId) {
    b in k.bindings && session in k.bindings[b].authority.sessions
  }

  /** Messages and timers about session grants; `Poison` is a malformed or misdirected message. */
  datatype SessionEvent =
    | Poison(child: Child)
    | OwnerRevoke(child: Child, request: RequestId, session: SessionId, genuine: bool, now: int)
    | OwnerGrant(binding: BindingId, message: GrantRequest, genuine: bool, now: int)
    | SessionVerified(frame: int, verification: Verification, now: int)
    | SessionExpires(binding: BindingId, session: SessionId, now: int)

  predicate SessionEnabled(s: Broker, e: SessionEvent) {
    match e
    case Poison(c) => Known(s.kids, c)
    case OwnerRevoke(c, _, _, _, _) => Known(s.kids, c)
    case OwnerGrant(b, _, _, _) => b in s.kids.bindings
    case SessionVerified(f, _, _) => GrantAt(s, f)
    case SessionExpires(b, session, _) => HasSession(s.kids, b, session)
  }

  function SessionApply(s: Broker, e: SessionEvent): Broker
    requires SessionEnabled(s, e)
  {
    match e
    case Poison(c) =>
      var b := s.kids.children[c];
      s.(kids := SetAuthority(s.kids, b, Close(s.kids.bindings[b].authority)))
    case OwnerRevoke(c, id, session, genuine, now) =>
      var b := s.kids.children[c];
      s.(kids := SetAuthority(s.kids, b, Revoke(s.kids.bindings[b].authority, id, session, genuine, now)))
    case OwnerGrant(b, m, genuine, now) => GrantAdmit(s, b, m, genuine, now)
    case SessionVerified(f, v, now) => GrantVerified(s, f, v, now)
    case SessionExpires(b, session, now) =>
      var a := s.kids.bindings[b].authority;
      s.(kids := SetAuthority(s.kids, b, Expire(a, session, a.sessions[session].expiresAt, now)))
  }

  // ---------------------------------------------------------------- requests

  /** The synchronous part of `requestIsAuthorized`. */
  function CheckRequest(a: Authority, u: UserId, session: Option<(SessionId, GrantId)>, now: int): Check {
    match session
    case None => Decided(u in a.staticUsers)
    case Some((id, grantId)) =>
      if a.role != Api || a.closed || !a.verifier then Decided(false)
      else if id !in a.sessions || a.sessions[id].owner != u || a.sessions[id].grantId != grantId
              || a.sessions[id].expiresAt <= now || id in a.tombstones
      then Decided(false)
      else Verifying(id, a.sessions[id])
  }

  function AddRequest(f: Frames, r: Request): Frames {
    f.(requests := f.requests[f.nextFrame := r], nextFrame := f.nextFrame + 1)
  }

  predicate RequestAt(s: Broker, f: int) { f in s.frames.requests && s.frames.requests[f].binding in s.kids.bindings }

  /** The authority of the request's binding after its session has been looked up again. */
  function Rechecked(s: Broker, f: int, v: Verification, now: int): Authority
    requires RequestAt(s, f) && s.frames.requests[f].check.Verifying?
  {
    var r := s.frames.requests[f];
    Recheck(s.kids.bindings[r.binding].authority, r.check.session, r.check.grant.expiresAt, v, now)
  }

  predicate StillAuthorized(s: Broker, f: int, v: Verification, now: int)
    requires RequestAt(s, f) && s.frames.requests[f].check.Verifying?
  {
    var r := s.frames.requests[f];
    var a := s.kids.bindings[r.binding].authority;
    && v == Active && Registered(s.kids.children, r.binding, s.kids.bindings[r.binding]) && !a.closed
    && r.check.session in a.sessions && a.sessions[r.check.session] == r.check.grant && r.check.grant.expiresAt > now
  }

  function SetCheck(f: Frames, id: int, check: Check): Frames
    requires id in f.requests
  {
    f.(requests := f.requests[id := f.requests[id].(check := check)])
  }

  function AddInFlight(binding: Binding, u: UserId): Binding {
    binding.(inFlight := binding.inFlight[u := Get(binding.inFlight, u) + 1])
  }

  function DropInFlight(binding: Binding, u: UserId): Binding {
    var count := if u in binding.inFlight then binding.inFlight[u] else 1;
    binding.(inFlight := if count <= 1 then binding.inFlight - {u} else binding.inFlight[u := count - 1])
  }

  function SetBinding(k: Kids, b: BindingId, x: Binding): Kids { k.(bindings := k.bindings[b := x]) }

  predicate Admissible(c: Calls, r: Request, fieldOk: bool) {
    && r.check.Decided? && r.check.authorized
    && Get(c.depth, r.user) == 0 && r.generation == Get(c.generations, r.user) && fieldOk
  }

  /** `active`: the installed key while nothing is pending and it has not expired. */
  predicate ActiveKey(c: Calls, u: UserId, now: int) {
    Get(c.depth, u) == 0 && u in c.unlocked && c.unlocked[u].expiresAt > now
  }

  /** The rest of `handle`: deny, go into `state()`, or encrypt/decrypt under the active key.
      An expired key starts a lock. `cryptoOk` is the outcome of the cipher. */
  function RequestResume(s: Broker, f: int, fieldOk: bool, cryptoOk: bool, now: int): Broker
    requires RequestAt(s, f)
  {
    var (c, r) := (s.calls, s.frames.requests[f]);
    var rest := s.frames.(requests := s.frames.requests - {f});
    if !Admissible(c, r, fieldOk) || r.operation == Rewrap then s.(frames := rest)
    else if r.operation == State then
      s.(frames := SetCheck(s.frames, f, InState),
         kids := SetBinding(s.kids, r.binding, AddInFlight(s.kids.bindings[r.binding], r.user)))
    else if r.user !in c.unlocked then s.(frames := rest)
    else if !ActiveKey(c, r.user, now) then s.(frames := rest, calls := LockCall(c, r.user))
    else if !cryptoOk then s.(frames := rest)
    else s.(frames := rest.(replies := rest.replies + [Reply(r.binding, r.user, r.generation, c.unlocked[r.user])]))
  }

  /** Requests of a child, from arrival to reply. */
  datatype RequestEvent =
    | RequestArrives(child: Child, user: UserId, generation: nat, operation: Operation,
                     authority: Option<(SessionId, GrantId)>, genuine: bool, now: int)
    | RequestIsVerified(frame: int, verification: Verification, now: int)
    | RequestResumes(frame: int, fieldOk: bool, cryptoOk: bool, now: int)
    | StateReturns(frame: int)

  predicate RequestEnabled(s: Broker, e: RequestEvent) {
    match e
    case RequestArrives(c, _, _, _, _, _, _) => Known(s.kids, c)
    case RequestIsVerified(f, _, _) => RequestAt(s, f) && s.frames.requests[f].check.Verifying?
    case RequestResumes(f, _, _, _) => RequestAt(s, f) && s.frames.requests[f].check.Decided?
    case StateReturns(f) => RequestAt(s, f) && s.frames.requests[f].check.InState?
  }

  function RequestApply(s: Broker, e: RequestEvent): Broker
    requires RequestEnabled(s, e)
  {
    match e
    case RequestArrives(c, u, generation, operation, authority, genuine, now) =>
      if !genuine then s
      else
        var b := s.kids.children[c];
        s.(frames := AddRequest(s.frames,
             Request(b, u, generation, operation, CheckRequest(s.kids.bindings[b].authority, u, authority, now))))
    case RequestIsVerified(f, v, now) =>
      s.(kids := SetAuthority(s.kids, s.frames.requests[f].binding, Rechecked(s, f, v, now)),
         frames := SetCheck(s.frames, f, Decided(StillAuthorized(s, f, v, now))))
    case RequestResumes(f, fieldOk, cryptoOk, now) => RequestResume(s, f, fieldOk, cryptoOk, now)
    case StateReturns(f) =>
      var r := s.frames.requests[f];
      s.(frames := s.frames.(requests := s.frames.requests - {f}),
         kids := SetBinding(s.kids, r.binding, DropInFlight(s.kids.bindings[r.binding], r.user)))
  }

  // ---------------------------------------------------------------- runs

  datatype Event =
    | OnOp(op: OpEvent) | OnChild(child: ChildEvent) | OnSession(session: SessionEvent) | OnRequest(request: RequestEvent)

  predicate Enabled(s: Broker, e: Event) {
    match e
    case OnOp(o) => OpEnabled(s, o)
    case OnChild(c) => ChildEnabled(s.kids, c)
    case OnSession(x) => SessionEnabled(s, x)
    case OnRequest(r) => RequestEnabled(s, r)
  }

  function Apply(s: Broker, e: Event): Broker
    requires Enabled(s, e)
  {
    match e
    case OnOp(o) => OpApply(s, o)
    case OnChild(c) => s.(kids := ChildApply(s.kids, c))
    case OnSession(x) => SessionApply(s, x)
    case OnRequest(r) => RequestApply(s, r)
  }

  /** A run: `states[0]` is the empty broker and each event leads to the next state. */
  ghost predicate IsRun(states: seq<Broker>, events: seq<Event>) {
    && |states| == |events| + 1
    && states[0] == Empty
    && forall i | 0 <= i < |events| :: Enabled(states[i], events[i]) && states[i + 1] == Apply(states[i], events[i])
  }
}
