/** What can still happen: no call of `lock` or `cache` is ever stuck. In every reachable state each
    pending call can be brought to return by timers and sections alone, although no child
    acknowledges, exits, or attaches, and nothing else is asked of the broker. */
module VaultProgress {
  import opened Identifiers
  import opened VaultBarrier
  import opened VaultCalls
  import opened VaultDrains
  import opened VaultSafety
  import opened VaultRuns
  import opened VaultTheorems

  // ---------------------------------------------------------------- continuations

  /** Sections, returns, and the timers of a drain: none needs a child to do anything. */
  predicate Helps(e: Event) {
    match e
    case OnOp(o) => o.StartSection? || o.Drained? || o.Return?
    case OnChild(c) => c.AckTimesOut? || c.ExitIsProven? || c.ExitIsUnproven?
    case OnSession(_) => false
    case OnRequest(_) => false
  }

  /** Such events lead from one state to another. */
  ghost predicate Leads(s: Broker, events: seq<Event>, t: Broker)
    decreases |events|
  {
    if events == [] then s == t
    else Helps(events[0]) && Enabled(s, events[0]) && Leads(Apply(s, events[0]), events[1..], t)
  }

  lemma {:induction false} LeadsOn(s: Broker, first: seq<Event>, t: Broker, second: seq<Event>, u: Broker)
    requires Leads(s, first, t) && Leads(t, second, u)
    ensures Leads(s, first + second, u)
    decreases |first|
  {
    hide Enabled, Apply, Helps;
    if first == [] {
      assert first + second == second;
    } else {
      LeadsOn(Apply(s, first[0]), first[1..], t, second, u);
      assert (first + second)[1..] == first[1..] + second && (first + second)[0] == first[0];
    }
  }

  /** Some continuation leads there, and the invariant holds there. */
  ghost predicate Reaches(s: Broker, t: Broker) {
    Inv(t) && exists events: seq<Event> :: Leads(s, events, t)
  }

  lemma ReachesSame(s: Broker)
    requires Inv(s)
    ensures Reaches(s, s)
  {
    hide Inv;
    assert Leads(s, [], s);
  }

  lemma ReachesThen(s: Broker, t: Broker, e: Event)
    requires Reaches(s, t) && Helps(e) && Enabled(t, e)
    ensures Reaches(s, Apply(t, e))
  {
    hide Inv, Enabled, Apply, Helps, Grows;
    Step(t, e);
    var events :| Leads(s, events, t);
    assert [e][1..] == [] && Leads(Apply(t, e), [], Apply(t, e));
    assert Leads(t, [e], Apply(t, e));
    LeadsOn(s, events, t, [e], Apply(t, e));
  }

  lemma ReachesTwice(s: Broker, t: Broker, u: Broker)
    requires Reaches(s, t) && Reaches(t, u)
    ensures Reaches(s, u)
  {
    hide Inv, Leads;
    var first :| Leads(s, first, t);
    var second :| Leads(t, second, u);
    LeadsOn(s, first, t, second, u);
  }

  // ---------------------------------------------------------------- waits settle

  /** Only waits have changed, and what had settled has stayed so. */
  ghost predicate Settles(s: Broker, t: Broker, id: OpId)
    requires id in s.kids.waits
  {
    && t.calls == s.calls && id in t.kids.waits && t.kids.waits[id].Keys == s.kids.waits[id].Keys
    && (forall c | c in s.kids.waits[id] && Settled(s.kids.waits[id][c]) :: Settled(t.kids.waits[id][c]))
  }

  /** One more timer of the wait for `b` goes off. */
  function Timer(k: Kids, id: OpId, b: BindingId): ChildEvent
    requires id in k.waits && b in k.waits[id] && b in k.bindings
  {
    if k.waits[id][b] == AwaitAck then AckTimesOut(id, b)
    else if k.bindings[b].child in k.exited then ExitIsProven(id, b)
    else ExitIsUnproven(id, b)
  }

  /** How many timers a wait has left. */
  function Left(w: Wait): nat { if w == AwaitAck then 3 else if w == Terminating then 2 else if w == Killing then 1 else 0 }

  lemma TimerFires(k: Kids, id: OpId, b: BindingId)
    requires id in k.waits && b in k.waits[id] && b in k.bindings && !Settled(k.waits[id][b])
    ensures ChildEnabled(k, Timer(k, id, b)) && Helps(OnChild(Timer(k, id, b)))
    ensures var r := ChildApply(k, Timer(k, id, b));
            && id in r.waits && r.waits[id].Keys == k.waits[id].Keys && Left(r.waits[id][b]) < Left(k.waits[id][b])
            && forall c | c in k.waits[id] && Settled(k.waits[id][c]) :: Settled(r.waits[id][c])
  {
    var w := k.waits[id][b];
    assert w == AwaitAck || w == Terminating || w == Killing;
  }

  /** The timers of one wait go off, one after the other. */
  lemma {:induction false} WaitSettles(s: Broker, id: OpId, b: BindingId) returns (t: Broker)
    requires Inv(s) && id in s.kids.waits && b in s.kids.waits[id]
    ensures Reaches(s, t) && Settles(s, t, id) && Settled(t.kids.waits[id][b])
    decreases Left(s.kids.waits[id][b])
  {
    hide Inv, Reaches, GoodBinding, ChildApply, ChildEnabled, Helps, Timer;
    ReachesSame(s);
    if Settled(s.kids.waits[id][b]) {
      t := s;
    } else {
      SettledWait(s, id, b);
      TimerFires(s.kids, id, b);
      var e := OnChild(Timer(s.kids, id, b));
      ReachesThen(s, s, e);
      var m := Apply(s, e);
      ReachedIsSafe(s, m);
      t := WaitSettles(m, id, b);
      ReachesTwice(s, m, t);
    }
  }

  lemma ReachedIsSafe(s: Broker, t: Broker)
    requires Reaches(s, t)
    ensures Inv(t)
  {
  }

  ghost function Unsettled(s: Broker, id: OpId): set<BindingId>
    requires id in s.kids.waits
  {
    set b | b in s.kids.waits[id] && !Settled(s.kids.waits[id][b])
  }

  lemma FewerUnsettled(s: Broker, t: Broker, id: OpId, b: BindingId)
    requires id in s.kids.waits && Settles(s, t, id) && b in s.kids.waits[id]
    requires !Settled(s.kids.waits[id][b]) && Settled(t.kids.waits[id][b])
    ensures Unsettled(t, id) < Unsettled(s, id)
  {
    assert b in Unsettled(s, id) && b !in Unsettled(t, id);
    forall c | c in Unsettled(t, id) ensures c in Unsettled(s, id) { assert c in t.kids.waits[id].Keys; }
  }

  /** So every drain can settle. */
  lemma {:induction false} DrainSettles(s: Broker, id: OpId) returns (t: Broker)
    requires Inv(s) && id in s.calls.ops && s.calls.ops[id].stage == Draining && id in s.kids.waits
    ensures Reaches(s, t) && t.calls == s.calls && DrainSettled(t, id)
    decreases Unsettled(s, id)
  {
    hide Inv, Reaches;
    if b :| b in s.kids.waits[id] && !Settled(s.kids.waits[id][b]) {
      var m := WaitSettles(s, id, b);
      FewerUnsettled(s, m, id, b);
      ReachedIsSafe(s, m);
      t := DrainSettles(m, id);
      ReachesTwice(s, m, t);
    } else {
      ReachesSame(s);
      t := s;
    }
  }

  // ---------------------------------------------------------------- calls return

  /** Calls made after this one are as they were. */
  ghost predicate LeavesLater(s: Broker, t: Broker, id: OpId) {
    forall a | a in s.calls.ops && a > id :: a in t.calls.ops && t.calls.ops[a] == s.calls.ops[a]
  }

  lemma SectionStarts(s: Broker, id: OpId)
    requires CanStart(s.calls, id)
    ensures var t := SectionStart(s, id, {});
            && id in t.calls.ops && (t.calls.ops[id].stage == Draining || t.calls.ops[id].stage == Done) && LeavesLater(s, t, id)
  {
    hide SectionStart, SendLocks, Outdated, Get;
    SectionCases(s, id, {});
  }

  lemma SectionEnds(s: Broker, id: OpId)
    requires DrainSettled(s, id)
    ensures var t := OpApply(s, Drained(id, 0)); id in t.calls.ops && t.calls.ops[id].stage == Done && LeavesLater(s, t, id)
  {
    hide Recipients, BarrierComplete, Succeeds, Contain;
  }

  lemma CallEnds(s: Broker, id: OpId)
    requires id in s.calls.ops && s.calls.ops[id].stage == Done
    ensures var t := OpApply(s, Return(id)); id in t.calls.ops && t.calls.ops[id].stage == Returned && LeavesLater(s, t, id)
  {
  }

  /** A call whose section has ended returns. */
  lemma DoneReturns(s: Broker, id: OpId) returns (t: Broker)
    requires Inv(s) && id in s.calls.ops && Finished(s.calls.ops[id])
    ensures Reaches(s, t) && LeavesLater(s, t, id) && id in t.calls.ops && t.calls.ops[id].stage == Returned
  {
    hide Inv, Reaches, OpApply;
    ReachesSame(s);
    t := s;
    if s.calls.ops[id].stage == Done {
      CallEnds(s, id);
      ReachesThen(s, s, OnOp(Return(id)));
      t := Apply(s, OnOp(Return(id)));
    }
  }

  lemma DrainingReturns(s: Broker, id: OpId) returns (t: Broker)
    requires Inv(s) && id in s.calls.ops && s.calls.ops[id].stage == Draining
    ensures Reaches(s, t) && LeavesLater(s, t, id) && id in t.calls.ops && t.calls.ops[id].stage == Returned
  {
    hide Inv, Reaches, OpApply, DrainSettled;
    DrainingWaits(s, id);
    var m := DrainSettles(s, id);
    SectionEnds(m, id);
    ReachesThen(s, m, OnOp(Drained(id, 0)));
    var n := Apply(m, OnOp(Drained(id, 0)));
    ReachedIsSafe(s, n);
    t := DoneReturns(n, id);
    ReachesTwice(s, n, t);
  }

  lemma DrainingWaits(s: Broker, id: OpId)
    requires Inv(s) && id in s.calls.ops && s.calls.ops[id].stage == Draining
    ensures id in s.kids.waits
  {
    hide CallInv, FrameInv, BindInv, CoverInv, GoodWait, GoodPending;
  }

  /** A section whose turn has come starts, whether or not it reaches any child, and the call returns. */
  lemma StartedReturns(s: Broker, id: OpId) returns (t: Broker)
    requires Inv(s) && CanStart(s.calls, id)
    ensures Reaches(s, t) && LeavesLater(s, t, id) && id in t.calls.ops && t.calls.ops[id].stage == Returned
  {
    hide Inv, Reaches, SectionStart, CanStart;
    var e := StartSection(id, {});
    ReachesSame(s);
    SectionStarts(s, id);
    ReachesThen(s, s, OnOp(e));
    var m := Apply(s, OnOp(e));
    ReachedIsSafe(s, m);
    if m.calls.ops[id].stage == Draining { t := DrainingReturns(m, id); } else { t := DoneReturns(m, id); }
    ReachesTwice(s, m, t);
  }

  /** The calls up to this one. */
  ghost function UpTo(s: Broker, id: OpId): set<OpId> { set a | a in s.calls.ops && a <= id }

  /** A queued call waits for the one before it, which returns first. */
  lemma {:induction false} CallReturns(s: Broker, id: OpId) returns (t: Broker)
    requires Inv(s) && id in s.calls.ops
    ensures Reaches(s, t) && LeavesLater(s, t, id) && id in t.calls.ops && t.calls.ops[id].stage == Returned
    decreases UpTo(s, id)
  {
    hide Inv, Reaches;
    var op := s.calls.ops[id];
    if Finished(op) {
      t := DoneReturns(s, id);
    } else if op.stage == Draining {
      t := DrainingReturns(s, id);
    } else if CanStart(s.calls, id) {
      t := StartedReturns(s, id);
    } else {
      PreviousIsEarlier(s, id);
      var p := op.prev.value;
      assert UpTo(s, p) < UpTo(s, id) by { assert id in UpTo(s, id) && id !in UpTo(s, p); }
      var m := CallReturns(s, p);
      ReachedIsSafe(s, m);
      t := StartedReturns(m, id);
      ReachesTwice(s, m, t);
    }
  }

  lemma PreviousIsEarlier(s: Broker, id: OpId)
    requires Inv(s) && id in s.calls.ops
    ensures s.calls.ops[id].prev.Some? ==> s.calls.ops[id].prev.value in s.calls.ops && s.calls.ops[id].prev.value < id
  {
    hide KidInv, FrameInv, DepthInv, EpochInv, GenInv, KeyInv;
    if s.calls.ops[id].prev.Some? { assert Later(s.calls.ops, s.calls.ops[id].prev.value, id); }
  }

  // ---------------------------------------------------------------- theorems

  /** In every state of every run every call of `lock` or `cache` can still return. */
  lemma EveryCallCanReturn(states: seq<Broker>, events: seq<Event>, i: nat, id: OpId) returns (t: Broker)
    requires IsRun(states, events) && i < |states| && id in states[i].calls.ops
    ensures Reaches(states[i], t) && id in t.calls.ops && t.calls.ops[id].stage == Returned
  {
    hide IsRun, Inv, Reaches;
    RunKeeps(states, events, i, i);
    t := CallReturns(states[i], id);
  }

  /** So while a call is pending the broker is never stuck: a section can go on or a timer is running. */
  lemma NoCallIsStuck(states: seq<Broker>, events: seq<Event>, i: nat, id: OpId) returns (e: Event)
    requires IsRun(states, events) && i < |states| && id in states[i].calls.ops && states[i].calls.ops[id].stage != Returned
    ensures Helps(e) && Enabled(states[i], e)
  {
    hide IsRun, Inv, Helps, Enabled, Apply;
    var t := EveryCallCanReturn(states, events, i, id);
    var more :| Leads(states[i], more, t);
    e := more[0];
  }
}
