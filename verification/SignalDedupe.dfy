/** The worker's bounded memory of forwarded signals, and when it agrees with an unbounded one.
    A user's map iterates in insertion order, so it is a sequence of entries with distinct keys. */
module SignalDedupe {
  import opened Identifiers

  type Key = int

  datatype Entry = Entry(key: Key, seenAt: int)

  type Ledger = seq<Entry>

  datatype Bounds = Bounds(ttl: nat, max: nat)

  ghost predicate Distinct(l: Ledger) {
    forall i, j | 0 <= i < j < |l| :: l[i].key != l[j].key
  }

  function IndexOf(l: Ledger, k: Key): (i: nat)
    ensures i <= |l|
    ensures i < |l| ==> l[i].key == k
    ensures forall j | 0 <= j < i :: l[j].key != k
  {
    if l == [] then 0 else if l[0].key == k then 0 else 1 + IndexOf(l[1..], k)
  }

  predicate Contains(l: Ledger, k: Key) { IndexOf(l, k) < |l| }

  /** `Map.set`: an existing key keeps its place. */
  function Set(l: Ledger, k: Key, seenAt: int): Ledger {
    if Contains(l, k) then l[IndexOf(l, k) := Entry(k, seenAt)] else l + [Entry(k, seenAt)]
  }

  /** Drop what is older than the time to live, in order. */
  function Unexpired(l: Ledger, cutoff: int): (u: Ledger)
    ensures |u| <= |l|
  {
    if l == [] then []
    else (if l[0].seenAt >= cutoff then [l[0]] else []) + Unexpired(l[1..], cutoff)
  }

  /** Then drop the oldest entries until there is room for one more. */
  function Trim(l: Ledger, max: nat): (t: Ledger)
    ensures |t| < max || t == []
  {
    if |l| >= max && l != [] then Trim(l[1..], max) else l
  }

  function Evict(l: Ledger, b: Bounds, now: int): Ledger { Trim(Unexpired(l, now - b.ttl), b.max) }

  /** `getOrCreate`: make room before an entry is set. */
  function MakeRoom(l: Ledger, b: Bounds, now: int): Ledger {
    if |l| >= b.max then Evict(l, b, now) else l
  }

  /** `mark` writes `now`; `hydrate` writes the time of a row that is not past its time to live. */
  datatype Write = Mark(key: Key) | Hydrate(key: Key, forwardedAt: int)

  function Skips(w: Write, b: Bounds, now: int): bool { w.Hydrate? && w.forwardedAt < now - b.ttl }

  function Stamp(w: Write, now: int): int { if w.Mark? then now else w.forwardedAt }

  function Apply(l: Ledger, w: Write, b: Bounds, now: int): Ledger {
    if Skips(w, b, now) then l else Set(MakeRoom(l, b, now), w.key, Stamp(w, now))
  }

  /** `has`: JavaScript takes a stamp of 0 for absent. */
  predicate Has(l: Ledger, k: Key, b: Bounds, now: int) {
    Contains(l, k) && l[IndexOf(l, k)].seenAt != 0 && now - l[IndexOf(l, k)].seenAt < b.ttl
  }

  // ---------------------------------------------------------------- the unbounded map

  /** `mark` records the time of the call; a row records its own, unless that is past its time to live. */
  function ApplyUnbounded(u: map<Key, int>, w: Write, b: Bounds, now: int): map<Key, int> {
    match w
    case Mark(key) => u[key := now]
    case Hydrate(key, forwardedAt) => if forwardedAt >= now - b.ttl then u[key := forwardedAt] else u
  }

  /** The write recorded this key at this time. */
  predicate Wrote(w: Write, at: int, b: Bounds, k: Key, seenAt: int) {
    match w
    case Mark(key) => key == k && seenAt == at
    case Hydrate(key, forwardedAt) => key == k && seenAt == forwardedAt && forwardedAt >= at - b.ttl
  }

  lemma WroteIs(w: Write, at: int, b: Bounds, k: Key, seenAt: int)
    ensures Wrote(w, at, b, k, seenAt) <==> !Skips(w, b, at) && w.key == k && seenAt == Stamp(w, at)
  {
  }

  /** The latest stamp per key, filtered by the time to live. */
  predicate Remembers(u: map<Key, int>, k: Key, b: Bounds, now: int) { k in u && now - u[k] < b.ttl }

  /** The keys not older than the time to live. */
  function LiveKeys(u: map<Key, int>, b: Bounds, now: int): set<Key> {
    set k | k in u && u[k] >= now - b.ttl
  }

  /** Each write with the time it was made. */
  type History = seq<(Write, int)>

  function LedgerAfter(h: History, b: Bounds): Ledger {
    if h == [] then [] else Apply(LedgerAfter(h[..|h| - 1], b), h[|h| - 1].0, b, h[|h| - 1].1)
  }

  function UnboundedAfter(h: History, b: Bounds): map<Key, int> {
    if h == [] then map[] else ApplyUnbounded(UnboundedAfter(h[..|h| - 1], b), h[|h| - 1].0, b, h[|h| - 1].1)
  }

  /** A non-decreasing clock and positive stamps. */
  ghost predicate Clocked(h: History) {
    && (forall i, j | 0 <= i <= j < |h| :: h[i].1 <= h[j].1)
    && (forall i | 0 <= i < |h| :: if h[i].0.Mark? then h[i].1 > 0 else h[i].0.forwardedAt > 0)
  }

  /** No write meets `max` or more live keys. */
  ghost predicate NeverFull(h: History, b: Bounds) {
    forall i | 0 <= i < |h| ::
      (h[i].0.Hydrate? && h[i].0.forwardedAt < h[i].1 - b.ttl) || |LiveKeys(UnboundedAfter(h[..i], b), b, h[i].1)| < b.max
  }

  // ---------------------------------------------------------------- sequences of entries

  lemma {:induction false} UnexpiredIs(l: Ledger, cutoff: int)
    requires Distinct(l)
    ensures Distinct(Unexpired(l, cutoff))
    ensures forall e :: e in Unexpired(l, cutoff) <==> e in l && e.seenAt >= cutoff
  {
    if l != [] {
      var (rest, u) := (l[1..], Unexpired(l[1..], cutoff));
      assert Distinct(rest);
      UnexpiredIs(rest, cutoff);
      forall e ensures e in Unexpired(l, cutoff) <==> e in l && e.seenAt >= cutoff {
        assert e in l <==> e == l[0] || e in rest;
      }
      if l[0].seenAt >= cutoff {
        forall j | 0 <= j < |u| ensures u[j].key != l[0].key {
          assert u[j] in rest;
          var i :| 0 <= i < |rest| && rest[i] == u[j];
          assert l[i + 1] == u[j];
        }
      }
    }
  }

  lemma {:induction false} TrimIs(l: Ledger, max: nat)
    ensures Trim(l, max) == if |l| < max then l else if max == 0 then [] else l[|l| - (max - 1)..]
  {
    if |l| >= max && l != [] {
      TrimIs(l[1..], max);
      if |l| == max { assert l[1..] == l[|l| - (max - 1)..]; }
    }
  }

  /** Looking a key up finds its only entry. */
  lemma FoundAt(l: Ledger, i: nat)
    requires Distinct(l) && i < |l|
    ensures IndexOf(l, l[i].key) == i
  {
  }

  lemma Found(l: Ledger, e: Entry)
    requires Distinct(l) && e in l
    ensures Contains(l, e.key) && l[IndexOf(l, e.key)] == e
  {
    var i: nat :| i < |l| && l[i] == e;
    FoundAt(l, i);
  }

  lemma SetDistinct(l: Ledger, k: Key, seenAt: int)
    requires Distinct(l)
    ensures Distinct(Set(l, k, seenAt)) && |Set(l, k, seenAt)| == if Contains(l, k) then |l| else |l| + 1
  {
  }

  lemma RoomDistinct(l: Ledger, b: Bounds, now: int)
    requires Distinct(l)
    ensures Distinct(MakeRoom(l, b, now)) && forall e | e in MakeRoom(l, b, now) :: e in l
  {
    hide Trim, Unexpired;
    UnexpiredIs(l, now - b.ttl);
    TrimIs(Unexpired(l, now - b.ttl), b.max);
  }

  // ---------------------------------------------------------------- the bound

  /** A user's map never exceeds the cap, whatever is written and when. */
  lemma {:induction false} NeverAboveCap(h: History, b: Bounds)
    requires b.max >= 1
    ensures Distinct(LedgerAfter(h, b)) && |LedgerAfter(h, b)| <= b.max
  {
    if h != [] {
      var (rest, w, now) := (h[..|h| - 1], h[|h| - 1].0, h[|h| - 1].1);
      NeverAboveCap(rest, b);
      var l := LedgerAfter(rest, b);
      RoomDistinct(l, b, now);
      SetDistinct(MakeRoom(l, b, now), w.key, Stamp(w, now));
    }
  }

  // ---------------------------------------------------------------- no false memory

  /** `has` never invents: it answers yes only for a key that some write of the run recorded less than a
      time to live ago. */
  lemma {:induction false} HasOnlyWhatWasWritten(h: History, b: Bounds, k: Key, now: int)
    requires Has(LedgerAfter(h, b), k, b, now)
    ensures exists i, seenAt :: 0 <= i < |h| && Wrote(h[i].0, h[i].1, b, k, seenAt) && now - seenAt < b.ttl
  {
    var e := LedgerAfter(h, b)[IndexOf(LedgerAfter(h, b), k)];
    HoldsOnlyWritten(h, b, e);
    var i :| 0 <= i < |h| && Wrote(h[i].0, h[i].1, b, e.key, e.seenAt);
    assert Wrote(h[i].0, h[i].1, b, k, e.seenAt) && now - e.seenAt < b.ttl;
  }

  lemma {:induction false} HoldsOnlyWritten(h: History, b: Bounds, e: Entry)
    requires e in LedgerAfter(h, b)
    ensures exists i :: 0 <= i < |h| && Wrote(h[i].0, h[i].1, b, e.key, e.seenAt)
  {
    var n := |h| - 1;
    var (rest, w, now) := (h[..n], h[n].0, h[n].1);
    var l := LedgerAfter(rest, b);
    WroteIs(w, now, b, e.key, e.seenAt);
    if !Wrote(h[n].0, h[n].1, b, e.key, e.seenAt) {
      if !Skips(w, b, now) { RoomKeepsOnly(l, b, now, e); }
      HoldsOnlyWritten(rest, b, e);
      var i :| 0 <= i < |rest| && Wrote(rest[i].0, rest[i].1, b, e.key, e.seenAt);
      assert h[i] == rest[i];
    }
  }

  lemma RoomKeepsOnly(l: Ledger, b: Bounds, now: int, e: Entry)
    ensures e in MakeRoom(l, b, now) ==> e in l
  {
    UnexpiredSubset(l, now - b.ttl, e);
    TrimIs(Unexpired(l, now - b.ttl), b.max);
  }

  lemma {:induction false} UnexpiredSubset(l: Ledger, cutoff: int, e: Entry)
    ensures e in Unexpired(l, cutoff) ==> e in l
  {
    if l != [] { UnexpiredSubset(l[1..], cutoff, e); }
  }

  // ---------------------------------------------------------------- agreement

  /** The ledger holds the unbounded map's stamps, and lacks only what has expired by `now`. */
  ghost predicate Agrees(l: Ledger, u: map<Key, int>, b: Bounds, now: int) {
    && Distinct(l)
    && (forall i | 0 <= i < |l| :: l[i].key in u && l[i].seenAt == u[l[i].key] && l[i].seenAt > 0)
    && (forall k | k in u && !Contains(l, k) :: u[k] < now - b.ttl)
  }

  lemma AgreesLater(l: Ledger, u: map<Key, int>, b: Bounds, now: int, later: int)
    requires Agrees(l, u, b, now) && now <= later
    ensures Agrees(l, u, b, later)
    ensures forall k :: Has(l, k, b, later) <==> Remembers(u, k, b, later)
  {
  }

  /** Entries of the ledger and live keys of the unbounded map correspond one to one. */
  lemma LiveCount(l: Ledger, u: map<Key, int>, b: Bounds, now: int)
    requires Agrees(l, u, b, now)
    ensures |Unexpired(l, now - b.ttl)| <= |LiveKeys(u, b, now)|
  {
    var e := Unexpired(l, now - b.ttl);
    UnexpiredIs(l, now - b.ttl);
    forall i | 0 <= i < |e| ensures e[i].key in LiveKeys(u, b, now) {
      assert e[i] in l;
    }
    DistinctCount(e, LiveKeys(u, b, now));
  }

  lemma {:induction false} DistinctCount(l: Ledger, keys: set<Key>)
    requires Distinct(l) && forall i | 0 <= i < |l| :: l[i].key in keys
    ensures |l| <= |keys|
  {
    if l != [] {
      assert forall i | 0 <= i < |l[1..]| :: l[1..][i].key in keys - {l[0].key};
      DistinctCount(l[1..], keys - {l[0].key});
    }
  }

  lemma UnexpiredContains(l: Ledger, cutoff: int, k: Key)
    requires Distinct(l)
    ensures Contains(Unexpired(l, cutoff), k) <==> Contains(l, k) && l[IndexOf(l, k)].seenAt >= cutoff
    ensures Contains(Unexpired(l, cutoff), k) ==> Unexpired(l, cutoff)[IndexOf(Unexpired(l, cutoff), k)] == l[IndexOf(l, k)]
  {
    var e := Unexpired(l, cutoff);
    UnexpiredIs(l, cutoff);
    if Contains(e, k) {
      assert e[IndexOf(e, k)] in e;
      Found(l, e[IndexOf(e, k)]);
    } else if Contains(l, k) && l[IndexOf(l, k)] in e {
      Found(e, l[IndexOf(l, k)]);
    }
  }

  lemma UnexpiredAgrees(l: Ledger, u: map<Key, int>, b: Bounds, now: int)
    requires Agrees(l, u, b, now)
    ensures Agrees(Unexpired(l, now - b.ttl), u, b, now)
  {
    var e := Unexpired(l, now - b.ttl);
    UnexpiredIs(l, now - b.ttl);
    forall i | 0 <= i < |e| ensures e[i].key in u && e[i].seenAt == u[e[i].key] && e[i].seenAt > 0 { assert e[i] in l; }
    forall k | k in u && !Contains(e, k) ensures u[k] < now - b.ttl { UnexpiredContains(l, now - b.ttl, k); }
  }

  /** Making room drops only what has expired, as long as there are fewer live keys than the cap. */
  lemma RoomAgrees(l: Ledger, u: map<Key, int>, b: Bounds, now: int)
    requires Agrees(l, u, b, now) && |LiveKeys(u, b, now)| < b.max
    ensures Agrees(MakeRoom(l, b, now), u, b, now)
  {
    hide Trim, Unexpired, Agrees, LiveKeys;
    LiveCount(l, u, b, now);
    UnexpiredAgrees(l, u, b, now);
    TrimIs(Unexpired(l, now - b.ttl), b.max);
  }

  lemma SetContains(l: Ledger, k: Key, seenAt: int, q: Key)
    requires Distinct(l)
    ensures Contains(Set(l, k, seenAt), q) <==> q == k || Contains(l, q)
    ensures Contains(Set(l, k, seenAt), k) && Set(l, k, seenAt)[IndexOf(Set(l, k, seenAt), k)] == Entry(k, seenAt)
    ensures q != k && Contains(l, q) ==> Set(l, k, seenAt)[IndexOf(Set(l, k, seenAt), q)] == l[IndexOf(l, q)]
  {
    var s := Set(l, k, seenAt);
    SetDistinct(l, k, seenAt);
    assert s[IndexOf(l, k)] == Entry(k, seenAt);
    Found(s, Entry(k, seenAt));
    if q != k {
      if Contains(l, q) {
        assert s[IndexOf(l, q)] == l[IndexOf(l, q)];
        Found(s, l[IndexOf(l, q)]);
      } else {
        assert forall j | 0 <= j < |s| :: s[j].key != q;
      }
    }
  }

  lemma SetAgrees(l: Ledger, u: map<Key, int>, b: Bounds, now: int, k: Key, seenAt: int)
    requires Agrees(l, u, b, now) && seenAt > 0
    ensures Agrees(Set(l, k, seenAt), u[k := seenAt], b, now)
  {
    var s := Set(l, k, seenAt);
    SetDistinct(l, k, seenAt);
    forall q | q in u[k := seenAt] && !Contains(s, q) ensures u[k := seenAt][q] < now - b.ttl {
      SetContains(l, k, seenAt, q);
    }
  }

  lemma {:induction false} AgreesThroughout(h: History, b: Bounds, now: int)
    requires Clocked(h) && NeverFull(h, b) && (h != [] ==> h[|h| - 1].1 <= now)
    ensures Agrees(LedgerAfter(h, b), UnboundedAfter(h, b), b, now)
  {
    if h != [] {
      var n := |h| - 1;
      var (rest, w, at) := (h[..n], h[n].0, h[n].1);
      assert Clocked(rest) && (rest != [] ==> rest[|rest| - 1] == h[n - 1]);
      assert NeverFull(rest, b) by {
        forall i | 0 <= i < |rest|
          ensures (rest[i].0.Hydrate? && rest[i].0.forwardedAt < rest[i].1 - b.ttl) || |LiveKeys(UnboundedAfter(rest[..i], b), b, rest[i].1)| < b.max
        {
          assert rest[..i] == h[..i] && rest[i] == h[i];
        }
      }
      AgreesThroughout(rest, b, at);
      var (l, u) := (LedgerAfter(rest, b), UnboundedAfter(rest, b));
      if !Skips(w, b, at) {
        assert h[..n] == rest;
        RoomAgrees(l, u, b, at);
        SetAgrees(MakeRoom(l, b, at), u, b, at, w.key, Stamp(w, at));
      }
      AgreesLater(LedgerAfter(h, b), UnboundedAfter(h, b), b, at, now);
    }
  }

  /** In every run where no write meets `max` or more live keys, `has` answers as the unbounded
      map of latest stamps would, for every key and at every later time. */
  lemma HasAgreesWithUnbounded(h: History, b: Bounds, k: Key, now: int)
    requires Clocked(h) && NeverFull(h, b) && (h != [] ==> h[|h| - 1].1 <= now)
    ensures Has(LedgerAfter(h, b), k, b, now) <==> Remembers(UnboundedAfter(h, b), k, b, now)
  {
    AgreesThroughout(h, b, now);
    AgreesLater(LedgerAfter(h, b), UnboundedAfter(h, b), b, now, now);
  }

  // ---------------------------------------------------------------- exactly when a full map forgets

  /** Entry `i` of the unexpired ones is thrown away by a write of `key`, within its time to live. */
  ghost predicate Loses(l: Ledger, b: Bounds, now: int, key: Key, i: nat) {
    var e := Unexpired(l, now - b.ttl);
    && |l| >= b.max && i < |e| && i + b.max <= |e|
    && e[i].key != key && now - e[i].seenAt < b.ttl
  }

  /** One write, by `mark` or by `hydrate`, from an agreeing ledger keeps agreement exactly when it was
      skipped or making room threw away no entry that is still within its time to live, other than
      the one being written. */
  lemma AgreementLostExactlyWhen(l: Ledger, u: map<Key, int>, b: Bounds, now: int, w: Write)
    requires Agrees(l, u, b, now) && b.max >= 1 && (if w.Mark? then now > 0 else w.forwardedAt > 0)
    ensures (forall q :: Has(Apply(l, w, b, now), q, b, now) <==> Remembers(ApplyUnbounded(u, w, b, now), q, b, now))
            <==> (w.Hydrate? && w.forwardedAt < now - b.ttl) || forall i: nat :: !Loses(l, b, now, w.key, i)
  {
    hide Agrees, Has, Remembers, Loses;
    AgreesLater(l, u, b, now, now);
    if !Skips(w, b, now) {
      forall i: nat | Loses(l, b, now, w.key, i)
        ensures exists q :: Has(Apply(l, w, b, now), q, b, now) != Remembers(ApplyUnbounded(u, w, b, now), q, b, now)
      {
        LostIsForgotten(l, u, b, now, w, i);
      }
      if forall i: nat :: !Loses(l, b, now, w.key, i) {
        forall q ensures Has(Apply(l, w, b, now), q, b, now) <==> Remembers(ApplyUnbounded(u, w, b, now), q, b, now) {
          AnswersAgree(l, u, b, now, w, q);
        }
      }
    }
  }

  lemma LostIsForgotten(l: Ledger, u: map<Key, int>, b: Bounds, now: int, w: Write, i: nat)
    requires Agrees(l, u, b, now) && b.max >= 1 && Loses(l, b, now, w.key, i) && !Skips(w, b, now)
    ensures exists q :: !Has(Apply(l, w, b, now), q, b, now) && Remembers(ApplyUnbounded(u, w, b, now), q, b, now)
  {
    hide Trim, Unexpired, IndexOf, Set;
    var e := Unexpired(l, now - b.ttl);
    UnexpiredIs(l, now - b.ttl);
    assert e[i] in l;
    TrimIs(e, b.max);
    var t := Trim(e, b.max);
    forall j | 0 <= j < |t| ensures t[j].key != e[i].key { assert t[j] == e[|e| - (b.max - 1) + j]; }
    RoomDistinct(l, b, now);
    SetContains(t, w.key, Stamp(w, now), e[i].key);
    assert !Has(Apply(l, w, b, now), e[i].key, b, now) && Remembers(ApplyUnbounded(u, w, b, now), e[i].key, b, now);
  }

  lemma AnswersAgree(l: Ledger, u: map<Key, int>, b: Bounds, now: int, w: Write, q: Key)
    requires Agrees(l, u, b, now) && b.max >= 1 && Stamp(w, now) > 0 && !Skips(w, b, now)
    requires forall i: nat :: !Loses(l, b, now, w.key, i)
    ensures Has(Apply(l, w, b, now), q, b, now) <==> Remembers(ApplyUnbounded(u, w, b, now), q, b, now)
  {
    hide MakeRoom, Loses;
    var room := MakeRoom(l, b, now);
    RoomDistinct(l, b, now);
    SetContains(room, w.key, Stamp(w, now), q);
    if q != w.key {
      if Contains(room, q) { Found(l, room[IndexOf(room, q)]); }
      if Remembers(u, q, b, now) {
        if |l| >= b.max { KeptInRoom(l, b, now, w.key, q); } else { RoomIsThere(l, b, now); }
      }
    }
  }

  lemma RoomIsThere(l: Ledger, b: Bounds, now: int)
    requires |l| < b.max
    ensures MakeRoom(l, b, now) == l
  {
  }

  lemma KeptInRoom(l: Ledger, b: Bounds, now: int, k: Key, q: Key)
    requires Distinct(l) && b.max >= 1 && q != k && |l| >= b.max
    requires Contains(l, q) && now - l[IndexOf(l, q)].seenAt < b.ttl
    requires forall i: nat :: !Loses(l, b, now, k, i)
    ensures Contains(MakeRoom(l, b, now), q)
  {
    hide Trim, Unexpired, IndexOf;
    var e := Unexpired(l, now - b.ttl);
    RoomDistinct(l, b, now);
    UnexpiredContains(l, now - b.ttl, q);
    TrimIs(e, b.max);
    var i := IndexOf(e, q);
    assert !Loses(l, b, now, k, i);
    if |e| >= b.max {
      var t := Trim(e, b.max);
      assert t[i - (|e| - (b.max - 1))] == e[i];
      Found(t, e[i]);
    }
  }

  // ---------------------------------------------------------------- in place

  lemma {:induction false} UnexpiredAppended(l: Ledger, e: Entry, cutoff: int)
    ensures Unexpired(l + [e], cutoff) == Unexpired(l, cutoff) + (if e.seenAt >= cutoff then [e] else [])
  {
    if l == [] {
      assert [] + [e] == [e] && [e][1..] == [];
    } else {
      var (head, rest) := (if l[0].seenAt >= cutoff then [l[0]] else [], l[1..]);
      UnexpiredAppended(rest, e, cutoff);
      assert (l + [e])[0] == l[0] && (l + [e])[1..] == rest + [e];
      assert Unexpired(l + [e], cutoff) == head + Unexpired(rest + [e], cutoff);
      assert Unexpired(l, cutoff) == head + Unexpired(rest, cutoff);
    }
  }

  class SignalDeduper {
    const ttlMs: nat
    const maxPerUser: nat
    var seenByUser: map<UserId, Ledger>

    constructor (ttlMs: nat, maxPerUser: nat)
      ensures seenByUser == map[] && Limits() == Bounds(ttlMs, maxPerUser)
    {
      this.ttlMs, this.maxPerUser, seenByUser := ttlMs, maxPerUser, map[];
    }

    function Limits(): Bounds { Bounds(ttlMs, maxPerUser) }

    function LedgerOf(user: UserId): Ledger
      reads this
    {
      if user in seenByUser then seenByUser[user] else []
    }

    method HasSeen(user: UserId, key: Key, now: int) returns (seen: bool)
      ensures seen <==> Has(LedgerOf(user), key, Limits(), now)
    {
      if user !in seenByUser { return false; }
      var i := IndexOf(seenByUser[user], key);
      if i == |seenByUser[user]| { return false; }
      var seenAt := seenByUser[user][i].seenAt;
      seen := seenAt != 0 && now - seenAt < ttlMs;
    }

    /** `evict`: one pass over the map, then the oldest entries one by one. */
    method EvictFrom(l: Ledger, now: int) returns (kept: Ledger)
      ensures kept == Evict(l, Limits(), now)
    {
      kept := [];
      for i := 0 to |l|
        invariant kept == Unexpired(l[..i], now - ttlMs)
      {
        UnexpiredAppended(l[..i], l[i], now - ttlMs);
        assert l[..i + 1] == l[..i] + [l[i]];
        if l[i].seenAt >= now - ttlMs { kept := kept + [l[i]]; }
      }
      assert l[..|l|] == l;
      ghost var unexpired := kept;
      while |kept| >= maxPerUser && |kept| > 0
        invariant Trim(kept, maxPerUser) == Trim(unexpired, maxPerUser)
        decreases |kept|
      {
        kept := kept[1..];
      }
    }

    method GetOrCreate(user: UserId, now: int)
      modifies this`seenByUser
      ensures seenByUser == old(seenByUser)[user := MakeRoom(old(LedgerOf(user)), Limits(), now)]
    {
      if user !in seenByUser { seenByUser := seenByUser[user := []]; }
      if |seenByUser[user]| >= maxPerUser {
        var kept := EvictFrom(seenByUser[user], now);
        seenByUser := seenByUser[user := kept];
      }
    }

    /** What has just been marked is remembered. */
    method MarkForwarded(user: UserId, key: Key, now: int)
      modifies this`seenByUser
      ensures seenByUser == old(seenByUser)[user := Apply(old(LedgerOf(user)), Mark(key), Limits(), now)]
      ensures now != 0 && ttlMs > 0 ==> Has(LedgerOf(user), key, Limits(), now)
    {
      SetFinds(MakeRoom(LedgerOf(user), Limits(), now), key, now);
      GetOrCreate(user, now);
      seenByUser := seenByUser[user := Set(seenByUser[user], key, now)];
    }

    /** Rows of the persistent ledger, in order; rows past their time to live are skipped. Into an empty map
        with room for every row, a key is remembered exactly as long as its last row that was not skipped. */
    method Replay(user: UserId, rows: seq<Entry>, now: int)
      modifies this`seenByUser
      ensures LedgerOf(user) == Replayed(old(LedgerOf(user)), rows, Limits(), now)
      ensures forall other | other != user :: LedgerOf(other) == old(LedgerOf(other))
      ensures old(LedgerOf(user)) == [] && |rows| <= maxPerUser && (forall row | row in rows :: row.seenAt > 0) ==>
                forall key, later: int ::
                  Has(LedgerOf(user), key, Limits(), later)
                  <==> exists i | 0 <= i < |rows| :: IsLastFresh(rows, i, key, now - ttlMs) && later - rows[i].seenAt < ttlMs
    {
      if LedgerOf(user) == [] && |rows| <= maxPerUser && (forall row | row in rows :: row.seenAt > 0) {
        forall key, later: int
          ensures Has(Replayed([], rows, Limits(), now), key, Limits(), later)
                  <==> exists i | 0 <= i < |rows| :: IsLastFresh(rows, i, key, now - ttlMs) && later - rows[i].seenAt < ttlMs
        {
          ReplayRemembers(rows, Limits(), now, key, later);
        }
      }
      for i := 0 to |rows|
        invariant LedgerOf(user) == Replayed(old(LedgerOf(user)), rows[..i], Limits(), now)
        invariant forall other | other != user :: LedgerOf(other) == old(LedgerOf(other))
      {
        assert rows[..i + 1][..i] == rows[..i];
        if rows[i].seenAt >= now - ttlMs {
          GetOrCreate(user, now);
          seenByUser := seenByUser[user := Set(seenByUser[user], rows[i].key, rows[i].seenAt)];
        }
      }
      assert rows[..|rows|] == rows;
    }

    method Reset(user: UserId)
      modifies this`seenByUser
      ensures LedgerOf(user) == [] && forall other | other != user :: LedgerOf(other) == old(LedgerOf(other))
    {
      seenByUser := seenByUser - {user};
    }
  }

  /** `hydrate` for one user's rows is a run of writes at one time. */
  function Replayed(l: Ledger, rows: seq<Entry>, b: Bounds, now: int): Ledger {
    if rows == [] then l
    else
      var (rest, row) := (rows[..|rows| - 1], rows[|rows| - 1]);
      Apply(Replayed(l, rest, b, now), Hydrate(row.key, row.seenAt), b, now)
  }

  /** The last row of the key that is not past its time to live. */
  predicate IsLastFresh(rows: seq<Entry>, i: nat, k: Key, cutoff: int)
    requires i < |rows|
  {
    rows[i].key == k && rows[i].seenAt >= cutoff && forall j | i < j < |rows| :: rows[j].key != k || rows[j].seenAt < cutoff
  }

  lemma {:induction false} ReplayHolds(rows: seq<Entry>, b: Bounds, now: int, k: Key)
    requires |rows| <= b.max
    ensures var l := Replayed([], rows, b, now);
            && Distinct(l) && |l| <= |rows|
            && (Contains(l, k) <==> exists i: nat :: i < |rows| && rows[i].key == k && IsLastFresh(rows, i, k, now - b.ttl))
            && (forall i: nat | i < |rows| && IsLastFresh(rows, i, k, now - b.ttl) :: Contains(l, k) && l[IndexOf(l, k)].seenAt == rows[i].seenAt)
  {
    if rows != [] {
      var (n, cutoff) := (|rows| - 1, now - b.ttl);
      var (rest, row) := (rows[..n], rows[n]);
      ReplayHolds(rest, b, now, k);
      var l := Replayed([], rest, b, now);
      forall i: nat | i < n
        ensures IsLastFresh(rows, i, k, cutoff) <==> IsLastFresh(rest, i, k, cutoff) && (row.key != k || row.seenAt < cutoff)
      {
        assert forall j | 0 <= j < n :: rest[j] == rows[j];
      }
      assert IsLastFresh(rows, n, k, cutoff) <==> row.key == k && row.seenAt >= cutoff;
      if row.seenAt >= cutoff {
        SetDistinct(l, row.key, row.seenAt);
        SetContains(l, row.key, row.seenAt, k);
      }
      if i: nat :| i < n && rest[i].key == k && IsLastFresh(rest, i, k, cutoff) {
        assert IsLastFresh(rows, i, k, cutoff) || IsLastFresh(rows, n, k, cutoff);
      }
    }
  }

  lemma ReplayRemembers(rows: seq<Entry>, b: Bounds, now: int, k: Key, later: int)
    requires |rows| <= b.max && forall row | row in rows :: row.seenAt > 0
    ensures Has(Replayed([], rows, b, now), k, b, later)
            <==> exists i | 0 <= i < |rows| :: IsLastFresh(rows, i, k, now - b.ttl) && later - rows[i].seenAt < b.ttl
  {
    hide Replayed, IndexOf;
    ReplayHolds(rows, b, now, k);
    var l := Replayed([], rows, b, now);
    if Has(l, k, b, later) {
      var i: nat :| i < |rows| && rows[i].key == k && IsLastFresh(rows, i, k, now - b.ttl);
      assert later - rows[i].seenAt < b.ttl;
    }
    if i :| 0 <= i < |rows| && IsLastFresh(rows, i, k, now - b.ttl) && later - rows[i].seenAt < b.ttl {
      assert rows[i] in rows;
      assert Has(l, k, b, later);
    }
  }

  lemma SetFinds(l: Ledger, k: Key, seenAt: int)
    ensures var s := Set(l, k, seenAt); Contains(s, k) && s[IndexOf(s, k)].seenAt == seenAt
  {
    IndexAfterSet(l, k, seenAt);
  }

  lemma {:induction false} IndexAfterSet(l: Ledger, k: Key, seenAt: int)
    ensures IndexOf(Set(l, k, seenAt), k) == IndexOf(l, k) && IndexOf(l, k) < |Set(l, k, seenAt)|
    ensures Set(l, k, seenAt)[IndexOf(l, k)] == Entry(k, seenAt)
  {
    var (s, i) := (Set(l, k, seenAt), IndexOf(l, k));
    assert s[i] == Entry(k, seenAt);
    assert forall j | 0 <= j < i :: s[j].key != k;
    IndexIs(s, k, i);
  }

  lemma IndexIs(l: Ledger, k: Key, i: nat)
    requires i < |l| && l[i].key == k && forall j | 0 <= j < i :: l[j].key != k
    ensures IndexOf(l, k) == i
  {
  }
}
