/** The connector's poll and the worker's forwarding loop, on the fields they update; each is
    proved against the step of `SignalDelivery` it performs. */
module GmailConnector {
  import opened Identifiers
  import opened SignalDelivery

  /** What a history entry added. */
  type HistoryEntry = seq<Message>

  /** The detail of a message, with its current history id when the server reports one. */
  datatype Detail = Detail(historyId: Option<int>)

  // ---------------------------------------------------------------- specification of the loops

  /** First occurrences, in order. */
  ghost predicate Lists(ids: seq<Message>, entries: seq<HistoryEntry>) {
    && (forall i, j | 0 <= i < j < |ids| :: ids[i] != ids[j])
    && (forall m :: m in ids <==> exists e :: 0 <= e < |entries| && m in entries[e])
  }

  /** The ids whose details the server served. */
  function Served(ids: seq<Message>, details: map<Message, Detail>): seq<Message> {
    if ids == [] then []
    else Served(ids[..|ids| - 1], details) + (if ids[|ids| - 1] in details then [ids[|ids| - 1]] else [])
  }

  /** The newest history id among them. */
  ghost predicate IsNewest(newest: Option<int>, served: seq<Message>, details: map<Message, Detail>) {
    && (newest == None ==> forall m | m in served && m in details :: details[m].historyId == None)
    && (newest.Some? ==> exists m :: m in served && m in details && details[m].historyId.Some? && details[m].historyId.value == newest.value)
    && (newest.Some? ==> forall m | m in served && m in details && details[m].historyId.Some? :: details[m].historyId.value <= newest.value)
  }

  /** Forwarding until the outcomes run out, the batch is done, or a forward fails. */
  function ForwardRun(s: Delivery, outcomes: seq<Outcome>): Delivery
    decreases |outcomes|
  {
    if outcomes == [] || !Forwarding(s) then s else ForwardRun(Forward(s, outcomes[0]), outcomes[1..])
  }

  /** Collect the added message ids once each. */
  method CollectIds(entries: seq<HistoryEntry>) returns (ids: seq<Message>)
    ensures Lists(ids, entries)
  {
    ids := [];
    var seen: set<Message> := {};
    for e := 0 to |entries|
      invariant forall i, j | 0 <= i < j < |ids| :: ids[i] != ids[j]
      invariant forall m :: m in seen <==> m in ids
      invariant forall m :: m in ids <==> exists f :: 0 <= f < e && m in entries[f]
    {
      for k := 0 to |entries[e]|
        invariant forall i, j | 0 <= i < j < |ids| :: ids[i] != ids[j]
        invariant forall m :: m in seen <==> m in ids
        invariant forall m :: m in ids <==> (exists f :: 0 <= f < e && m in entries[f]) || m in entries[e][..k]
      {
        var m := entries[e][k];
        assert entries[e][..k + 1] == entries[e][..k] + [m];
        if m !in seen {
          seen := seen + {m};
          ids := ids + [m];
        }
      }
      assert entries[e][..|entries[e]|] == entries[e];
    }
  }

  /** `fetchAndConvert`: skip what is not served, keep the newest history id. */
  method FetchAndConvert(ids: seq<Message>, details: map<Message, Detail>) returns (signals: seq<Message>, newest: Option<int>)
    ensures signals == Served(ids, details) && IsNewest(newest, signals, details)
    ensures forall m | m in signals :: m in ids
    ensures forall m | m in ids && m in details :: m in signals
  {
    signals, newest := [], None;
    for i := 0 to |ids|
      invariant signals == Served(ids[..i], details) && IsNewest(newest, signals, details)
      invariant forall m | m in signals :: m in ids[..i]
      invariant forall m | m in ids[..i] && m in details :: m in signals
    {
      assert ids[..i + 1][..i] == ids[..i];
      var m := ids[i];
      if m in details {
        ghost var before := signals;
        signals := signals + [m];
        var id := details[m].historyId;
        if id.Some? && (newest == None || id.value > newest.value) { newest := id; }
      }
    }
    assert ids[..|ids|] == ids;
  }

  /** Signals of the batch that were not remembered, each once. */
  ghost predicate HandedOver(batch: seq<Message>, remembered: set<Message>, forwarded: seq<Message>) {
    && (forall k | 0 <= k < |forwarded| :: forwarded[k] in batch && forwarded[k] !in remembered)
    && (forall k, l | 0 <= k < l < |forwarded| :: forwarded[k] != forwarded[l])
  }

  class Connector {
    var stored: Option<int>
    var historyId: Option<int>
    var pendingHistoryId: Option<int>
    var batch: Option<seq<Message>>
    var marks: set<Message>
    ghost var accepted: set<Message>
    ghost var base: Option<int>
    ghost var first: Option<int>

    /** The delivery state, for the mailbox as it is. */
    ghost function State(messages: set<Message>, top: int): Delivery
      reads this
    {
      Delivery(messages, top, stored, historyId, pendingHistoryId, batch, marks, accepted, base, first)
    }

    constructor ()
      ensures State({}, 0) == Empty
    {
      stored, historyId, pendingHistoryId, batch, marks := None, None, None, None, {};
      accepted, base, first := {}, None, None;
    }

    /** The durable write comes first; memory follows only if it succeeded. */
    method Persist(id: int, save: Save, ghost messages: set<Message>, ghost top: int)
      modifies this`stored, this`historyId, this`pendingHistoryId, this`base, this`first
      ensures State(messages, top) == PersistCursor(old(State(messages, top)), id, save)
    {
      if save == NotSaved { return; }
      if stored == None { first := Some(id); }
      stored := Some(id);
      if historyId == None { base := Some(id); }
      if save == SavedButFailed { return; }
      historyId := Some(id);
      pendingHistoryId := None;
    }

    method Stage(id: int, ghost messages: set<Message>, ghost top: int)
      modifies this`pendingHistoryId
      ensures State(messages, top) == StageCursor(old(State(messages, top)), id)
    {
      pendingHistoryId := Some(id);
    }

    /** `commitCursor`. */
    method Commit(save: Save, ghost messages: set<Message>, ghost top: int)
      modifies this`stored, this`historyId, this`pendingHistoryId, this`base, this`first, this`batch
      ensures State(messages, top) == CommitCursor(old(State(messages, top)), save)
    {
      batch := None;
      if pendingHistoryId == None { return; }
      Persist(pendingHistoryId.value, save, messages, top);
    }

    /** `pollHistorySince`: what the connector makes of one response and its details. */
    method PollSince(entries: seq<HistoryEntry>, reported: Option<int>, details: map<Message, Detail>, save: Save,
                     ghost messages: set<Message>, ghost top: int)
      returns (ghost served: seq<Message>, ghost newest: Option<int>, ghost cursor: int)
      requires historyId.Some?
      modifies this`stored, this`historyId, this`pendingHistoryId, this`base, this`first, this`batch
      ensures State(messages, top) == PollHistorySince(old(State(messages, top)), served, reported, newest, save)
      ensures forall m :: m in served <==> (exists e :: 0 <= e < |entries| && m in entries[e]) && m in details
      ensures IsNewest(newest, served, details)
      ensures LeadsTo(old(historyId).value, Polls(served, reported, newest, save), cursor)
      ensures forall m | m in served && m in details && details[m].historyId.Some? :: cursor >= details[m].historyId.value
      ensures served != [] ==> batch == Some(served) && stored == old(stored) && historyId == old(historyId)
      ensures served != [] ==> pendingHistoryId == if cursor != old(historyId).value then Some(cursor) else old(pendingHistoryId)
      ensures served == [] && cursor != old(historyId).value && save == Saved ==>
                stored == Some(cursor) && historyId == Some(cursor) && pendingHistoryId == None && batch == Some([])
      ensures served == [] && cursor == old(historyId).value ==>
                stored == old(stored) && historyId == old(historyId) && pendingHistoryId == old(pendingHistoryId) && batch == Some([])
    {
      var start := historyId.value;
      var ids := CollectIds(entries);
      var next := if reported.Some? then reported.value else start;
      var signals, latest := FetchAndConvert(ids, details);
      ServedAreKnown(ids, details);
      served, newest := signals, latest;
      if signals != [] && latest.Some? && latest.value > next { next := latest.value; }
      cursor := next;
      batch := Some(signals);
      if next != start {
        if signals != [] {
          Stage(next, messages, top);
        } else {
          Persist(next, save, messages, top);
          if save != Saved { batch := None; }
        }
      }
    }

    /** The worker's loop over the poll's signals: skip, forward, remember; stop at a failure. What is
        remembered is not handed over again, nothing is handed over twice, and once the loop is through,
        everything is remembered; a hand-over that failed is not. */
    method ForwardAll(outcomes: seq<Outcome>, ghost messages: set<Message>, ghost top: int) returns (forwarded: seq<Message>)
      modifies this`batch, this`marks, this`accepted
      ensures State(messages, top) == ForwardRun(old(State(messages, top)), outcomes)
      ensures HandedOver(if old(batch).Some? then old(batch).value else [], old(marks), forwarded)
      ensures forall m | m in marks :: m in old(marks) || m in forwarded
      ensures batch.Some? ==> forall m | m in forwarded || m in old(marks) :: m in marks
      ensures batch == None && old(batch).Some? ==> forwarded != [] && forwarded[|forwarded| - 1] !in marks
      ensures batch == Some([]) && old(batch).Some? ==> forall m | m in old(batch).value :: m in marks
    {
      ghost var all := if batch.Some? then batch.value else [];
      forwarded := [];
      var i := 0;
      while i < |outcomes| && batch.Some? && batch.value != []
        invariant i <= |outcomes|
        invariant ForwardRun(State(messages, top), outcomes[i..]) == ForwardRun(old(State(messages, top)), outcomes)
        invariant HandedOver(all, old(marks), forwarded)
        invariant forall m | m in marks :: m in old(marks) || m in forwarded
        invariant batch.Some? ==> forall m | m in forwarded || m in old(marks) :: m in marks
        invariant batch == None && old(batch).Some? ==> forwarded != [] && forwarded[|forwarded| - 1] !in marks
        invariant batch.Some? ==> i <= |all| && batch.value == all[i..] && forall m | m in all[..i] :: m in marks
      {
        assert batch.value[0] == all[i];
        var m := batch.value[0];
        ghost var before := State(messages, top);
        if m in marks {
          batch := Some(batch.value[1..]);
        } else if outcomes[i] == Accepted {
          forwarded := forwarded + [m];
          accepted := accepted + {m};
          marks := marks + {m};
          batch := Some(batch.value[1..]);
        } else {
          forwarded := forwarded + [m];
          if outcomes[i] == AcceptedButFailed { accepted := accepted + {m}; }
          batch := None;
        }
        assert State(messages, top) == Forward(before, outcomes[i]);
        assert outcomes[i..][1..] == outcomes[i + 1..];
        i := i + 1;
      }
    }
  }

  lemma {:induction false} ServedAreKnown(ids: seq<Message>, details: map<Message, Detail>)
    ensures forall m | m in Served(ids, details) :: m in details
  {
    if ids != [] { ServedAreKnown(ids[..|ids| - 1], details); }
  }
}
