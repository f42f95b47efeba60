/** At-least-once delivery of mailbox messages: the Gmail connector stages a cursor, the worker
    forwards every signal of the poll, and only then is the cursor made durable. A message is
    named by the history id at which it was added. */
module SignalDelivery {
  import opened Identifiers

  type Message = int

  datatype Delivery = Delivery(
    messages: set<Message>, top: int,          // the mailbox: what was added, and its current history id
    durable: Option<int>,                      // the stored cursor
    historyId: Option<int>,                    // the connector's cursor,
    pending: Option<int>,                      // and the advance it has staged
    batch: Option<seq<Message>>,               // what is left to forward of the poll in progress
    marks: set<Message>,                       // the deduper's memory
    accepted: set<Message>,                    // history: what the API has accepted,
    base: Option<int>,                         // the cursor last taken without a predecessor,
    first: Option<int>)                        // and the first cursor ever stored

  /** A save may succeed, fail, or be made durable and still fail. */
  datatype Save = Saved | NotSaved | SavedButFailed

  datatype Outcome = Accepted | Refused | AcceptedButFailed

  datatype Event =
    | Arrives(message: Message) | Advances(to: int)
    | Polls(served: seq<Message>, reported: Option<int>, newest: Option<int>, save: Save)
    | Bootstraps(listed: seq<Message>, latest: Option<int>, profile: Option<int>, save: Save)
    | Expires | Forwards(outcome: Outcome) | Commits(save: Save)
    | Aborts | Restarts(hydrated: set<Message>) | Forgets(kept: set<Message>)

  const Empty: Delivery := Delivery({}, 0, None, None, None, None, {}, {}, None, None)

  predicate AtMost(o: Option<int>, top: int) { o.Some? ==> o.value <= top }

  predicate Forwarding(s: Delivery) { s.batch.Some? && s.batch.value != [] }

  predicate CanHappen(s: Delivery, e: Event) {
    match e
    case Arrives(m) => m > s.top
    case Advances(to) => to >= s.top
    case Polls(served, reported, newest, _) =>
      && s.batch == None && s.historyId.Some? && AtMost(reported, s.top) && AtMost(newest, s.top)
      && forall m | m in served :: m in s.messages && m > s.historyId.value
    case Bootstraps(listed, latest, profile, _) =>
      && s.batch == None && s.historyId == None && AtMost(latest, s.top) && AtMost(profile, s.top)
      && forall m | m in listed :: m in s.messages
    case Expires => s.batch == None
    case Forwards(_) => Forwarding(s)
    case Commits(_) => s.batch.Some? && s.batch.value == []
    case Aborts => true
    case Restarts(hydrated) => hydrated <= s.accepted
    case Forgets(kept) => kept <= s.marks
  }

  // ---------------------------------------------------------------- steps

  function StageCursor(s: Delivery, id: int): Delivery { s.(pending := Some(id)) }

  /** The durable write; a cursor stored while none was known is a new base. */
  function StoreCursor(s: Delivery, id: int): Delivery {
    s.(durable := Some(id), base := if s.historyId == None then Some(id) else s.base,
       first := if s.durable == None then Some(id) else s.first)
  }

  /** `persistCursor`: memory moves only after the durable write has succeeded. */
  function PersistCursor(s: Delivery, id: int, save: Save): Delivery {
    match save
    case NotSaved => s
    case SavedButFailed => StoreCursor(s, id)
    case Saved => StoreCursor(s, id).(historyId := Some(id), pending := None)
  }

  /** A persist inside `poll` that fails ends the poll. */
  function PersistInPoll(s: Delivery, id: int, save: Save): Delivery {
    PersistCursor(s, id, save).(batch := if save == Saved then Some([]) else None)
  }

  /** The larger of the response's history id and the newest served message's. */
  function NextCursor(start: int, reported: Option<int>, newest: Option<int>, any: bool): int {
    var next := if reported.Some? then reported.value else start;
    if any && newest.Some? && newest.value > next then newest.value else next
  }

  /** `pollHistorySince`. */
  function PollHistorySince(s: Delivery, served: seq<Message>, reported: Option<int>, newest: Option<int>, save: Save): Delivery
    requires s.historyId.Some?
  {
    var next := NextCursor(s.historyId.value, reported, newest, served != []);
    if next == s.historyId.value then s.(batch := Some(served))
    else if served != [] then StageCursor(s, next).(batch := Some(served))
    else PersistInPoll(s, next, save)
  }

  /** `bootstrapAndEmit`. */
  function Bootstrap(s: Delivery, listed: seq<Message>, latest: Option<int>, profile: Option<int>, save: Save): Delivery {
    if listed == [] then
      if profile.Some? then PersistInPoll(s, profile.value, save) else s.(batch := Some([]))
    else if latest.Some? then StageCursor(s, latest.value).(batch := Some(listed))
    else s.(batch := Some(listed))
  }

  /** One turn of the worker's loop: skip what is remembered, forward, then remember. */
  function Forward(s: Delivery, outcome: Outcome): Delivery
    requires Forwarding(s)
  {
    var (m, rest) := (s.batch.value[0], s.batch.value[1..]);
    if m in s.marks then s.(batch := Some(rest))
    else
      match outcome
      case Accepted => s.(accepted := s.accepted + {m}, marks := s.marks + {m}, batch := Some(rest))
      case AcceptedButFailed => s.(accepted := s.accepted + {m}, batch := None)
      case Refused => s.(batch := None)
  }

  /** `commitCursor`. */
  function CommitCursor(s: Delivery, save: Save): Delivery {
    var done := s.(batch := None);
    if s.pending == None then done else PersistCursor(done, s.pending.value, save)
  }

  function Apply(s: Delivery, e: Event): Delivery
    requires CanHappen(s, e)
  {
    match e
    case Arrives(m) => s.(messages := s.messages + {m}, top := m)
    case Advances(to) => s.(top := to)
    case Polls(served, reported, newest, save) => PollHistorySince(s, served, reported, newest, save)
    case Bootstraps(listed, latest, profile, save) => Bootstrap(s, listed, latest, profile, save)
    case Expires => s.(historyId := None)
    case Forwards(outcome) => Forward(s, outcome)
    case Commits(save) => CommitCursor(s, save)
    case Aborts => s.(batch := None)
    case Restarts(hydrated) => s.(historyId := s.durable, pending := None, batch := None, marks := hydrated)
    case Forgets(kept) => s.(marks := kept)
  }

  ghost predicate IsRun(states: seq<Delivery>, events: seq<Event>) {
    && |states| == |events| + 1
    && states[0] == Empty
    && forall i | 0 <= i < |events| :: CanHappen(states[i], events[i]) && states[i + 1] == Apply(states[i], events[i])
  }

  // ---------------------------------------------------------------- the law

  /** Every message after `base` and at or below `cursor` has been accepted. */
  ghost predicate Covered(s: Delivery, cursor: int) {
    s.base.Some? ==> forall m | m in s.messages && s.base.value < m <= cursor :: m in s.accepted
  }

  ghost predicate Law(s: Delivery) { s.durable.Some? ==> s.base.Some? && Covered(s, s.durable.value) }

  /** The cursor that a commit after this poll would store: the poll's own, or one staged by an
      earlier poll that was never committed. */
  function Target(s: Delivery, e: Event): Option<int>
    requires e.Polls? && s.historyId.Some?
  {
    var next := NextCursor(s.historyId.value, e.reported, e.newest, e.served != []);
    if next != s.historyId.value then Some(next) else s.pending
  }

  /** The poll advances past no message that it did not serve and that has not been accepted. */
  ghost predicate PassesNothing(s: Delivery, e: Event) {
    e.Polls? && s.historyId.Some? && Target(s, e).Some? ==>
      forall m | m in s.messages && s.historyId.value < m <= Target(s, e).value :: m in s.accepted || m in e.served
  }

  /** The poll served every message added since its start: the history came whole, every detail was
      served, and the mailbox did not change meanwhile. */
  ghost predicate Complete(s: Delivery, e: Event) {
    e.Polls? && s.historyId.Some? ==> forall m | m in s.messages && m > s.historyId.value :: m in e.served
  }

  lemma CompletePassesNothing(s: Delivery, e: Event)
    requires Complete(s, e)
    ensures PassesNothing(s, e)
  {
  }

  ghost predicate Inv(s: Delivery) {
    && (forall m | m in s.messages :: m <= s.top)
    && AtMost(s.durable, s.top) && AtMost(s.historyId, s.top) && AtMost(s.pending, s.top)
    && s.marks <= s.accepted
    && Law(s)
    && (s.historyId.Some? ==> s.base.Some? && s.durable.Some? && Covered(s, s.historyId.value))
    && (s.historyId.Some? && s.pending.Some? && s.batch.Some? ==> AboutToCommit(s, s.historyId.value, s.pending.value, s.batch.value))
  }

  /** Between the cursor and the staged one, everything is accepted or still to be forwarded. */
  ghost predicate AboutToCommit(s: Delivery, from: int, to: int, rest: seq<Message>) {
    forall m | m in s.messages && from < m <= to :: m in s.accepted || m in rest
  }

  lemma CoveredUpTo(s: Delivery, from: int, to: int)
    requires Covered(s, from) && (forall m | m in s.messages && from < m <= to :: m in s.accepted)
    ensures Covered(s, to)
  {
  }

  lemma PersistKeeps(s: Delivery, id: int, save: Save)
    requires Inv(s) && s.batch == None && id <= s.top && (s.historyId.Some? ==> Covered(s, id))
    ensures Inv(PersistCursor(s, id, save)) && Inv(PersistInPoll(s, id, save))
  {
  }

  lemma PollKeeps(s: Delivery, e: Event)
    requires Inv(s) && CanHappen(s, e) && PassesNothing(s, e) && e.Polls?
    ensures Inv(Apply(s, e))
  {
    var a := s.historyId.value;
    var next := NextCursor(a, e.reported, e.newest, e.served != []);
    if next != a && e.served == [] {
      assert forall m | m in s.messages && a < m <= next :: m in s.accepted;
      CoveredUpTo(s, a, next);
      PersistKeeps(s, next, e.save);
    }
  }

  lemma ForwardKeeps(s: Delivery, outcome: Outcome)
    requires Inv(s) && Forwarding(s)
    ensures Inv(Forward(s, outcome))
  {
    var (m, rest) := (s.batch.value[0], s.batch.value[1..]);
    assert s.batch.value == [m] + rest;
  }

  lemma CommitKeeps(s: Delivery, save: Save)
    requires Inv(s) && s.batch.Some? && s.batch.value == []
    ensures Inv(CommitCursor(s, save))
  {
    if s.pending.Some? {
      if s.historyId.Some? { CoveredUpTo(s, s.historyId.value, s.pending.value); }
      PersistKeeps(s.(batch := None), s.pending.value, save);
    }
  }

  lemma Step(s: Delivery, e: Event)
    requires Inv(s) && CanHappen(s, e) && PassesNothing(s, e)
    ensures Inv(Apply(s, e))
  {
    match e
    case Polls(_, _, _, _) => PollKeeps(s, e);
    case Bootstraps(listed, latest, profile, save) =>
      if listed == [] && profile.Some? { PersistKeeps(s, profile.value, save); }
    case Forwards(outcome) => ForwardKeeps(s, outcome);
    case Commits(save) => CommitKeeps(s, save);
    case _ =>
  }

  ghost predicate NonePassOver(states: seq<Delivery>, events: seq<Event>)
    requires |states| == |events| + 1
  {
    forall i | 0 <= i < |events| :: PassesNothing(states[i], events[i])
  }

  ghost predicate AllComplete(states: seq<Delivery>, events: seq<Event>)
    requires |states| == |events| + 1
  {
    forall i | 0 <= i < |events| :: Complete(states[i], events[i])
  }

  /** Over every run of polls, forwards, failures and restarts in which no poll advances past a
      message it did not serve, each message after the first cursor and at or below the durable one
      has been accepted by the API. */
  lemma {:induction false} DeliveredUnlessPassedOver(states: seq<Delivery>, events: seq<Event>, i: nat)
    requires IsRun(states, events) && NonePassOver(states, events) && i < |states|
    ensures Law(states[i]) && Inv(states[i])
  {
    if i > 0 {
      DeliveredUnlessPassedOver(states, events, i - 1);
      assert PassesNothing(states[i - 1], events[i - 1]);
      Step(states[i - 1], events[i - 1]);
    }
  }

  /** So it does in every run against a server whose polls are complete. */
  lemma DeliveredAtLeastOnce(states: seq<Delivery>, events: seq<Event>, i: nat)
    requires IsRun(states, events) && AllComplete(states, events) && i < |states|
    ensures Law(states[i])
  {
    forall k | 0 <= k < |events| ensures PassesNothing(states[k], events[k]) {
      assert Complete(states[k], events[k]);
      CompletePassesNothing(states[k], events[k]);
    }
    DeliveredUnlessPassedOver(states, events, i);
  }

  // ---------------------------------------------------------------- the first cursor

  /** A known cursor is stored and has a base. */
  ghost predicate Known(s: Delivery) { s.historyId.Some? ==> s.durable.Some? && s.base.Some? }

  lemma KnownStep(s: Delivery, e: Event)
    requires Known(s) && (s.durable.Some? ==> s.base.Some?) && CanHappen(s, e)
    ensures Known(Apply(s, e)) && (Apply(s, e).durable.Some? ==> Apply(s, e).base.Some?)
    ensures s.historyId.Some? && e != Expires ==> Apply(s, e).historyId.Some? && Apply(s, e).base == s.base
  {
  }

  lemma {:induction false} KnownThroughout(states: seq<Delivery>, events: seq<Event>, i: nat)
    requires IsRun(states, events) && i < |states|
    ensures Known(states[i]) && (states[i].durable.Some? ==> states[i].base.Some?)
  {
    if i > 0 {
      KnownThroughout(states, events, i - 1);
      KnownStep(states[i - 1], events[i - 1]);
    }
  }

  /** Once a cursor is known it stays known, and its base stays the same, until it expires: through
      any number of polls, failures and restarts. */
  lemma {:induction false} FirstCursorStays(states: seq<Delivery>, events: seq<Event>, i: nat, j: nat)
    requires IsRun(states, events) && i <= j < |states| && states[i].historyId.Some?
    requires forall k | i <= k < j :: events[k] != Expires
    ensures states[j].historyId.Some? && states[j].base == states[i].base && states[j].base.Some?
  {
    KnownThroughout(states, events, j);
    if i < j {
      FirstCursorStays(states, events, i, j - 1);
      KnownThroughout(states, events, j - 1);
      KnownStep(states[j - 1], events[j - 1]);
    }
  }

  /** What forgets the first cursor: it expires, or its save is made durable and still fails. */
  predicate LosesFirst(s: Delivery, e: Event) {
    e == Expires || (s.historyId == None && ((e.Bootstraps? && e.save == SavedButFailed) || (e.Commits? && e.save == SavedButFailed)))
  }

  /** Otherwise the base is the first cursor ever stored. */
  ghost predicate BaseIsFirst(s: Delivery) {
    && s.base == s.first && (s.durable.Some? <==> s.first.Some?) && (s.durable.Some? <==> s.historyId.Some?)
  }

  lemma {:induction false} BaseStaysFirst(states: seq<Delivery>, events: seq<Event>, i: nat)
    requires IsRun(states, events) && i < |states| && forall k | 0 <= k < i :: !LosesFirst(states[k], events[k])
    ensures BaseIsFirst(states[i])
  {
    if i > 0 {
      BaseStaysFirst(states, events, i - 1);
      BaseStep(states[i - 1], events[i - 1]);
    }
  }

  lemma BaseStep(s: Delivery, e: Event)
    requires BaseIsFirst(s) && CanHappen(s, e) && !LosesFirst(s, e)
    ensures BaseIsFirst(Apply(s, e))
  {
  }

  /** The law for the first cursor ever stored. */
  ghost predicate LawFromFirst(s: Delivery) {
    s.durable.Some? && s.first.Some? ==> forall m | m in s.messages && s.first.value < m <= s.durable.value :: m in s.accepted
  }

  /** It holds exactly when what lies between that cursor and the base has been accepted. */
  lemma LawFromFirstIff(s: Delivery)
    requires Inv(s) && s.durable.Some? && s.first.Some?
    ensures LawFromFirst(s) <==> forall m | m in s.messages && s.first.value < m <= s.durable.value && m <= s.base.value :: m in s.accepted
  {
  }

  /** And over every run in which nothing forgets it. */
  lemma DeliveredFromFirst(states: seq<Delivery>, events: seq<Event>, i: nat)
    requires IsRun(states, events) && NonePassOver(states, events) && i < |states|
    requires forall k | 0 <= k < i :: !LosesFirst(states[k], events[k])
    ensures LawFromFirst(states[i])
  {
    DeliveredUnlessPassedOver(states, events, i);
    BaseStaysFirst(states, events, i);
  }

  // ---------------------------------------------------------------- exactly when a poll keeps the law

  /** Everything the worker still has to forward is accepted, then the cursor is committed. */
  function Finish(s: Delivery): Delivery
    requires s.batch.Some?
    decreases |s.batch.value|
  {
    if s.batch.value == [] then CommitCursor(s, Saved) else Finish(Forward(s, Accepted))
  }

  lemma {:induction false} FinishIs(s: Delivery)
    requires s.batch.Some? && s.marks <= s.accepted
    ensures var t := Finish(s);
            && t.messages == s.messages
            && (forall m :: m in t.accepted <==> m in s.accepted || m in s.batch.value)
            && (forall m | m in s.batch.value || m in s.marks :: m in t.marks) && t.batch == None
            && t.historyId == (if s.pending.Some? then s.pending else s.historyId)
            && (if s.pending.Some? then t.durable.Some? && t.durable.value == s.pending.value else t.durable == s.durable)
            && (s.historyId.Some? ==> t.base == s.base)
    decreases |s.batch.value|
  {
    if s.batch.value != [] {
      assert s.batch.value == [s.batch.value[0]] + s.batch.value[1..];
      FinishIs(Forward(s, Accepted));
    }
  }

  /** Any poll, whatever it served, reported or saw newest, that is forwarded without failure and
      committed, keeps the law exactly when every message between the base and the cursor it leads
      to had been accepted or was served. */
  lemma PollKeepsLawIff(s: Delivery, e: Event)
    requires Inv(s) && CanHappen(s, e) && e.Polls? && e.save == Saved
    ensures Apply(s, e).batch.Some?
    ensures Law(Finish(Apply(s, e)))
            <==> (Target(s, e).Some? ==>
                    forall m | m in s.messages && s.base.value < m <= Target(s, e).value :: m in s.accepted || m in e.served)
  {
    var p := Apply(s, e);
    FinishIs(p);
    var t := Finish(p);
    assert t.base == s.base;
    if Law(t) && Target(s, e).Some? {
      forall m | m in s.messages && s.base.value < m <= Target(s, e).value ensures m in s.accepted || m in e.served {
        assert m in t.accepted;
      }
    }
  }

  // ---------------------------------------------------------------- where a poll leads

  /** The larger of what the response reported and what the newest served detail carries; the poll's own
      start stands in for a missing report. */
  ghost predicate LeadsTo(start: int, e: Event, v: int) {
    && e.Polls? && (if e.reported.Some? then v >= e.reported.value else v >= start)
    && (e.served != [] && e.newest.Some? ==> v >= e.newest.value)
    && (Some(v) == e.reported || (e.reported == None && v == start) || (e.served != [] && Some(v) == e.newest))
  }

  /** There is one such cursor. A poll that is forwarded and committed makes it the durable one and the
      connector's own, if it is not the start; otherwise the commit stores what was staged before. */
  lemma PollStores(s: Delivery, e: Event) returns (v: int)
    requires Inv(s) && CanHappen(s, e) && e.Polls? && e.save == Saved
    ensures LeadsTo(s.historyId.value, e, v) && forall w | LeadsTo(s.historyId.value, e, w) :: w == v
    ensures Apply(s, e).batch == Some(e.served)
    ensures var (t, start) := (Finish(Apply(s, e)), s.historyId.value);
            && (forall m | m in e.served :: m in t.accepted && m in t.marks)
            && (v != start ==> t.durable == Some(v) && t.historyId == Some(v))
            && (v == start && s.pending == None ==> t.durable == s.durable && t.historyId == s.historyId)
  {
    v := NextCursor(s.historyId.value, e.reported, e.newest, e.served != []);
    var p := Apply(s, e);
    FinishIs(p);
    if v != s.historyId.value && e.served != [] { SomeValue(p.pending, v); }
    if Finish(p).durable.Some? && p.pending.Some? { SomeValue(Finish(p).durable, p.pending.value); }
  }

  /** So polls make progress: a poll that reports the mailbox's own history id, forwarded and committed,
      brings the connector up to it, and until something arrives the next poll serves nothing. If it was
      complete, everything since the base has been accepted. */
  lemma PollCatchesUp(s: Delivery, e: Event)
    requires Inv(s) && CanHappen(s, e) && e.Polls? && e.save == Saved
    requires e.reported == Some(s.top) && s.historyId.value != s.top
    ensures Apply(s, e).batch.Some?
    ensures var t := Finish(Apply(s, e));
            && t.durable == Some(s.top) && t.historyId == Some(s.top) && t.batch == None
            && (forall f: Event | f.Polls? && CanHappen(t, f) :: f.served == [])
            && (Complete(s, e) ==> Law(t) && forall m | m in t.messages && t.base.Some? && t.base.value < m :: m in t.accepted)
  {
    hide Finish;
    var v := PollStores(s, e);
    assert LeadsTo(s.historyId.value, e, s.top);
    var t := Finish(Apply(s, e));
    FinishIs(Apply(s, e));
    SomeValue(t.durable, s.top);
    SomeValue(t.historyId, s.top);
    forall f: Event | f.Polls? && CanHappen(t, f) ensures f.served == [] {
      NothingSince(t, f, s.top);
    }
    if Complete(s, e) {
      CompletePassesNothing(s, e);
      PollKeepsLawIff(s, e);
      CompleteTarget(s, e);
    }
  }

  lemma NothingSince(t: Delivery, f: Event, top: int)
    requires f.Polls? && CanHappen(t, f) && t.historyId.value >= top && forall m | m in t.messages :: m <= top
    ensures f.served == []
  {
    assert f.served == [] || f.served[0] in f.served;
    assert forall m | m in f.served :: m in t.messages && m <= top && m > top;
  }

  lemma CompleteTarget(s: Delivery, e: Event)
    requires Inv(s) && CanHappen(s, e) && e.Polls? && Complete(s, e) && Target(s, e).Some?
    ensures forall m | m in s.messages && s.base.value < m <= Target(s, e).value :: m in s.accepted || m in e.served
  {
  }

  /** A bootstrap's first cursor: the profile's for an empty mailbox, otherwise the newest listed. */
  lemma BootstrapStores(s: Delivery, e: Event)
    requires Inv(s) && CanHappen(s, e) && e.Bootstraps? && e.save == Saved
    ensures Apply(s, e).batch == Some(e.listed)
    ensures var (t, cursor) := (Finish(Apply(s, e)), if e.listed == [] then e.profile else e.latest);
            && (forall m | m in e.listed :: m in t.accepted && m in t.marks)
            && (cursor.Some? ==> t.durable == cursor && t.historyId == cursor && t.base == cursor)
  {
    var p := Apply(s, e);
    FinishIs(p);
    FinishBase(p);
    if Finish(p).durable.Some? && p.pending.Some? { SomeValue(Finish(p).durable, p.pending.value); }
  }

  /** The first cursor taken becomes the base. */
  lemma {:induction false} FinishBase(s: Delivery)
    requires s.batch.Some?
    ensures Finish(s).base == if s.pending.Some? && s.historyId == None then s.pending else s.base
    decreases |s.batch.value|
  {
    if s.batch.value != [] { FinishBase(Forward(s, Accepted)); }
  }

  /** Some run reaches this state. */
  ghost predicate Reachable(s: Delivery) {
    exists states: seq<Delivery>, events: seq<Event> :: IsRun(states, events) && states[|events|] == s
  }

  lemma ReachStart()
    ensures Reachable(Empty)
  {
    var events: seq<Event> := [];
    assert IsRun([Empty], events) && [Empty][|events|] == Empty;
  }

  lemma ReachNext(s: Delivery, e: Event)
    requires Reachable(s) && CanHappen(s, e)
    ensures Reachable(Apply(s, e))
  {
    hide Apply, CanHappen;
    var states, events :| IsRun(states, events) && states[|events|] == s;
    var (more, steps) := (states + [Apply(s, e)], events + [e]);
    forall i | 0 <= i < |steps| ensures CanHappen(more[i], steps[i]) && more[i + 1] == Apply(more[i], steps[i]) {
      if i < |events| { assert more[i] == states[i] && more[i + 1] == states[i + 1] && steps[i] == events[i]; }
    }
    assert IsRun(more, steps) && more[|steps|] == Apply(s, e);
  }

  ghost function UpTo(n: nat): (r: set<int>)
    ensures forall m :: m in r <==> 1 <= m <= n
  {
    if n == 0 then {} else UpTo(n - 1) + {n}
  }

  /** A mailbox in which messages 1 to `n` have arrived since the first cursor. */
  ghost function Mailbox(n: nat): Delivery {
    Delivery(UpTo(n), n, Some(0), Some(0), None, None, {}, {}, Some(0), Some(0))
  }

  lemma {:induction false} ReachMailbox(n: nat)
    ensures Reachable(Mailbox(n)) && Inv(Mailbox(n))
  {
    if n == 0 {
      ReachStart();
      ReachNext(Empty, Bootstraps([], None, Some(0), Saved));
      var s := Apply(Empty, Bootstraps([], None, Some(0), Saved));
      ReachNext(s, Commits(Saved));
    } else {
      ReachMailbox(n - 1);
      ReachNext(Mailbox(n - 1), Arrives(n));
    }
  }

  lemma {:induction false} ReachFinish(s: Delivery)
    requires Reachable(s) && s.batch.Some?
    ensures Reachable(Finish(s))
    decreases |s.batch.value|
  {
    if s.batch.value == [] {
      ReachNext(s, Commits(Saved));
    } else {
      ReachNext(s, Forwards(Accepted));
      ReachFinish(Forward(s, Accepted));
    }
  }

  /** A poll of such a mailbox that advances past an unserved message loses it, in a run without a
      single failed forward or save. */
  lemma PollLoses(n: nat, e: Event, m: Message) returns (s: Delivery)
    requires CanHappen(Mailbox(n), e) && e.Polls? && e.save == Saved && 1 <= m <= n && m !in e.served
    requires Target(Mailbox(n), e).Some? && m <= Target(Mailbox(n), e).value
    ensures Reachable(s) && !Law(s) && m in s.messages && m !in s.accepted && s.messages == UpTo(n)
  {
    hide Finish, Reachable, Inv, Law, Target;
    ReachMailbox(n);
    PollKeepsLawIff(Mailbox(n), e);
    ReachNext(Mailbox(n), e);
    var p := Polled(n, e);
    ReachFinish(p);
    FinishIs(p);
    s := Finish(p);
    assert m in Mailbox(n).messages;
  }

  lemma Polled(n: nat, e: Event) returns (p: Delivery)
    requires CanHappen(Mailbox(n), e) && e.Polls? && e.save == Saved
    ensures p == Apply(Mailbox(n), e) && p.batch == Some(e.served) && p.messages == UpTo(n) && p.accepted == {} && p.marks == {}
  {
    p := Apply(Mailbox(n), e);
  }

  /** The connector asks for one page of this many records, and never for the next. */
  const MAX_RESULTS: nat := 100

  /** With one message more than a page waiting, the last is passed over. */
  lemma LongHistoryLosesMessage() returns (s: Delivery)
    ensures Reachable(s) && !Law(s) && MAX_RESULTS + 1 in s.messages && MAX_RESULTS + 1 !in s.accepted
  {
    s := PageLosesMessage(MAX_RESULTS);
  }

  lemma PageLosesMessage(page: nat) returns (s: Delivery)
    requires page > 0
    ensures Reachable(s) && !Law(s) && page + 1 in s.messages && page + 1 !in s.accepted
  {
    hide Reachable, Law;
    var served := seq(page, i => i + 1);
    s := PollLoses(page + 1, Polls(served, Some(page + 1), None, Saved), page + 1);
  }

  /** Two messages wait and the detail of the first is not served: the cursor passes it all the same. */
  lemma FailedDetailLosesMessage() returns (s: Delivery)
    ensures Reachable(s) && !Law(s) && 1 in s.messages && 1 !in s.accepted
  {
    hide Reachable, Law;
    s := PollLoses(2, Polls([2], Some(2), Some(2), Saved), 1);
  }

  /** The history lists message 1; message 2 arrives before the detail of 1 is fetched, and the
      mailbox moves on to 3. The detail carries 3, which becomes the cursor: 2 is passed over. */
  lemma LateDetailLosesMessage() returns (s: Delivery)
    ensures Reachable(s) && !Law(s) && 2 in s.messages && 2 !in s.accepted
  {
    hide Finish, Reachable, Inv, Law;
    ReachMailbox(2);
    ReachNext(Mailbox(2), Advances(3));
    var m := Apply(Mailbox(2), Advances(3));
    MovedMailbox(m);
    var e := Polls([1], Some(1), Some(3), Saved);
    PollKeepsLawIff(m, e);
    ReachNext(m, e);
    var p := Apply(m, e);
    ReachFinish(p);
    FinishIs(p);
    s := Finish(p);
    assert 2 in m.messages && 2 !in e.served;
  }

  lemma MovedMailbox(m: Delivery)
    requires m == Mailbox(2).(top := 3)
    ensures Inv(m)
  {
  }

  /** The first save is made durable and still fails; the connector bootstraps again and takes a later
      cursor. Message 1, after the first cursor ever stored, is never forwarded, though no poll has
      passed over anything and the law for the base holds. */
  lemma FailedFirstSaveLosesMessage() returns (s: Delivery)
    ensures Reachable(s) && Law(s) && !LawFromFirst(s) && 1 in s.messages && 1 !in s.accepted
  {
    hide Reachable;
    ReachStart();
    ReachNext(Empty, Bootstraps([], None, Some(0), SavedButFailed));
    s := Apply(Empty, Bootstraps([], None, Some(0), SavedButFailed));
    ReachNext(s, Arrives(1));
    s := Apply(s, Arrives(1));
    ReachNext(s, Arrives(2));
    s := Apply(s, Arrives(2));
    ReachNext(s, Bootstraps([2], Some(2), None, Saved));
    s := Apply(s, Bootstraps([2], Some(2), None, Saved));
    ReachNext(s, Forwards(Accepted));
    s := Apply(s, Forwards(Accepted));
    ReachNext(s, Commits(Saved));
    s := Apply(s, Commits(Saved));
    assert s.first == Some(0) && s.durable == Some(2) && 1 in s.messages && 1 !in s.accepted;
  }
}
