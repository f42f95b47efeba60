/** The theorems about runs are not about nothing: a child attaches, an unlock drains it and installs
    a key, the child asks under the published generation and is answered. */
module VaultExample {
  import opened Identifiers
  import opened SessionAuthority
  import opened VaultBarrier

  const USER: UserId := 7
  const CHILD: Child := 1

  /** Some run reaches this state. */
  ghost predicate Reachable(s: Broker) {
    exists states: seq<Broker>, events: seq<Event> :: IsRun(states, events) && states[|events|] == s
  }

  lemma ReachStart()
    ensures Reachable(Empty)
  {
    var events: seq<Event> := [];
    assert IsRun([Empty], events) && [Empty][|events|] == Empty;
  }

  lemma ReachNext(s: Broker, e: Event)
    requires Reachable(s) && Enabled(s, e)
    ensures Reachable(Apply(s, e))
  {
    hide Apply, Enabled;
    var states, events :| IsRun(states, events) && states[|events|] == s;
    var (more, steps) := (states + [Apply(s, e)], events + [e]);
    forall i | 0 <= i < |steps| ensures Enabled(more[i], steps[i]) && more[i + 1] == Apply(more[i], steps[i]) {
      if i < |events| { assert more[i] == states[i] && more[i + 1] == states[i + 1] && steps[i] == events[i]; }
    }
    assert IsRun(more, steps) && more[|steps|] == Apply(s, e);
  }

  // ---------------------------------------------------------------- the child attaches

  const AttachedAuthority: Authority := Authority(Api, true, {USER}, {USER}, map[], map[], map[], false)

  function ChildBinding(lockAcks: map<LockId, PendingAck>): Binding {
    Binding(CHILD, AttachedAuthority, map[], lockAcks, Loading, false)
  }

  function AttachedKids(lockAcks: map<LockId, PendingAck>, waits: map<OpId, map<BindingId, Wait>>, acks: set<Ack>): Kids {
    Kids(map[CHILD := 0], map[0 := ChildBinding(lockAcks)], 1, waits, {}, acks)
  }

  lemma ChildAttaches() returns (s: Broker)
    ensures Reachable(s) && s == Broker(Empty.calls, AttachedKids(map[], map[], {}), Empty.frames)
  {
    hide Reachable;
    ReachStart();
    ReachNext(Empty, OnChild(CallAttach(CHILD, Api, {USER}, true, true)));
    s := Apply(Empty, OnChild(CallAttach(CHILD, Api, {USER}, true, true)));
  }

  // ---------------------------------------------------------------- an unlock drains it

  function CacheOp(stage: Stage, generation: nat, horizon: BindingId, outcome: bool): Op {
    Op(USER, Cache(0, 0), None, stage, generation, horizon, outcome)
  }

  lemma UnlockIsCached() returns (s: Broker)
    ensures Reachable(s) && s.kids == AttachedKids(map[], map[], {}) && s.frames == Empty.frames
    ensures s.calls == Empty.calls.(depth := map[USER := 1], tails := map[USER := 0], ops := map[0 := CacheOp(Queued, 0, 0, false)],
                                    nextOp := 1, unlocks := map[0 := Unlock(USER, 0, true)], nextUnlock := 1)
  {
    hide Reachable;
    var r := ChildAttaches();
    ReachNext(r, OnOp(StartUnlock(USER)));
    var t := Apply(r, OnOp(StartUnlock(USER)));
    assert t.calls == Empty.calls.(unlocks := map[0 := Unlock(USER, 0, false)], nextUnlock := 1);
    ReachNext(t, OnOp(CallCache(0)));
    s := Apply(t, OnOp(CallCache(0)));
  }

  lemma OneLockIsSent()
    ensures SendLocks(AttachedKids(map[], map[], {}), 0, USER, 1, {0})
            == AttachedKids(map[(0, 0) := PendingAck(USER, 1)], map[0 := map[0 := AwaitAck]], {})
  {
    var r := AttachedKids(map[], map[], {});
    var k := SendLocks(r, 0, USER, 1, {0});
    assert ExposedTo(r.bindings, r.children, USER) == {0};
    assert ChildBinding(map[]).lockAcks[(0, 0) := PendingAck(USER, 1)] == map[(0, 0) := PendingAck(USER, 1)];
    assert k.bindings[0] == ChildBinding(map[(0, 0) := PendingAck(USER, 1)]);
    assert k.bindings == map[0 := ChildBinding(map[(0, 0) := PendingAck(USER, 1)])];
    assert k.waits[0] == map[0 := AwaitAck];
  }

  lemma SectionDrains() returns (s: Broker)
    ensures Reachable(s) && s.frames == Empty.frames
    ensures s.kids == AttachedKids(map[(0, 0) := PendingAck(USER, 1)], map[0 := map[0 := AwaitAck]], {})
    ensures s.calls == Empty.calls.(depth := map[USER := 1], tails := map[USER := 0], ops := map[0 := CacheOp(Draining, 1, 1, false)],
                                    nextOp := 1, unlocks := map[0 := Unlock(USER, 0, true)], nextUnlock := 1,
                                    generations := map[USER := 1], drains := [Drain(USER, 1, 0)])
  {
    hide Reachable;
    var r := UnlockIsCached();
    ReachNext(r, OnOp(StartSection(0, {0})));
    s := Apply(r, OnOp(StartSection(0, {0})));
    hide SectionStart, SendLocks;
    SectionCases(r, 0, {0});
    OneLockIsSent();
    assert r.calls.unlocked - {USER} == map[];
  }

  lemma ChildAcknowledges() returns (s: Broker)
    ensures Reachable(s) && s.frames == Empty.frames
    ensures s.kids == AttachedKids(map[], map[0 := map[0 := Acked]], {Ack(0, (0, 0), USER, 1)})
    ensures s.calls == Empty.calls.(depth := map[USER := 1], tails := map[USER := 0], ops := map[0 := CacheOp(Draining, 1, 1, false)],
                                    nextOp := 1, unlocks := map[0 := Unlock(USER, 0, true)], nextUnlock := 1,
                                    generations := map[USER := 1], drains := [Drain(USER, 1, 0)])
  {
    hide Reachable;
    var r := SectionDrains();
    ReachNext(r, OnChild(AckArrives(CHILD, (0, 0), USER, 1, true)));
    s := Apply(r, OnChild(AckArrives(CHILD, (0, 0), USER, 1, true)));
    var k := SetWait(r.kids, 0, 0, Acked);
    assert r.kids.bindings[0].lockAcks - {(0, 0)} == map[];
    assert k.bindings == map[0 := ChildBinding(map[])];
    assert r.kids.waits[0][0 := Acked] == map[0 := Acked];
    assert k.waits == map[0 := map[0 := Acked]];
    assert r.kids.acks + {Ack(0, (0, 0), USER, 1)} == {Ack(0, (0, 0), USER, 1)};
  }

  // ---------------------------------------------------------------- the key is installed and used

  const INSTALLED: InstalledKey := InstalledKey(0, 0, 1, 100)

  lemma KeyIsInstalled() returns (s: Broker)
    ensures Reachable(s) && s.frames == Empty.frames
    ensures s.kids == AttachedKids(map[], map[0 := map[0 := Acked]], {Ack(0, (0, 0), USER, 1)})
    ensures s.calls.unlocked == map[USER := INSTALLED] && s.calls.generations == map[USER := 1] && s.calls.depth == map[]
  {
    hide Reachable;
    var r := ChildAcknowledges();
    ReachNext(r, OnOp(Drained(0, 100)));
    var t := Apply(r, OnOp(Drained(0, 100)));
    assert BarrierComplete(r.kids, 0);
    assert t.calls.unlocked == map[USER := INSTALLED] && t.calls.depth == map[USER := 1];
    ReachNext(t, OnOp(Return(0)));
    s := Apply(t, OnOp(Return(0)));
    assert map[USER := 1] - {USER} == map[];
  }

  /** There is a run in which an unlock waits for a child's acknowledgement, installs a key, and a
      request of that child under the published generation is answered with it. */
  lemma SomeRequestIsAnswered()
    ensures exists s :: Reachable(s) && s.frames.replies == [Reply(0, USER, 1, INSTALLED)] && Ack(0, (0, 0), USER, 1) in s.kids.acks
  {
    hide Reachable;
    var r := KeyIsInstalled();
    var arrives := OnRequest(RequestArrives(CHILD, USER, 1, Encrypt, None, true, 0));
    ReachNext(r, arrives);
    var t := Apply(r, arrives);
    assert t.frames == Empty.frames.(requests := map[0 := Request(0, USER, 1, Encrypt, Decided(true))], nextFrame := 1);
    ReachNext(t, OnRequest(RequestResumes(0, true, true, 0)));
    var s := Apply(t, OnRequest(RequestResumes(0, true, true, 0)));
    assert s.frames.replies == [Reply(0, USER, 1, INSTALLED)];
  }
}
