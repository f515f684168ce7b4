/**
 Long-term pairing records: which of them a new pairing evicts, and how the open connections that
 protect some are limited.

 A Python dictionary keeps insertion order, so the records are a sequence with distinct keys. No two
 calls on the store overlap.
 */
module RecordStore {
  import opened Common

  const MIN_RECORD_CAPACITY := 5

  type PskId(==, !new)
  type ServerId(==, !new)

  datatype Record = Record(pskId: PskId, serverId: ServerId, used: bool, createdAt: int, lastUsedAt: int)

  // ---------------------------------------------------------------- the record table

  predicate Unique(rs: seq<Record>) { forall i, j :: 0 <= i < j < |rs| ==> rs[i].pskId != rs[j].pskId }

  ghost function Ids(rs: seq<Record>): set<PskId> { set r | r in rs :: r.pskId }

  /** The table without the given keys, in order. */
  function Without(rs: seq<Record>, ids: set<PskId>): seq<Record> {
    if rs == [] then []
    else
      var front, last := Without(rs[..|rs| - 1], ids), rs[|rs| - 1];
      if last.pskId in ids then front else front + [last]
  }

  function Find(rs: seq<Record>, id: PskId): (i: nat)
    ensures i <= |rs|
    ensures i < |rs| ==> rs[i].pskId == id
    ensures forall j :: 0 <= j < i ==> rs[j].pskId != id
  {
    if rs == [] then 0
    else if rs[0].pskId == id then 0
    else
      var i := Find(rs[1..], id);
      assert forall j :: 1 <= j < i + 1 ==> rs[j] == rs[1..][j - 1];
      i + 1
  }

  /** Storing replaces a record in place, or appends a new one. */
  function Put(rs: seq<Record>, r: Record): seq<Record> {
    var i := Find(rs, r.pskId);
    if i < |rs| then rs[i := r] else rs + [r]
  }

  lemma {:induction false} WithoutMembers(rs: seq<Record>, ids: set<PskId>)
    ensures forall r :: r in Without(rs, ids) <==> r in rs && r.pskId !in ids
    decreases |rs|
  {
    if rs != [] { WithoutMembers(rs[..|rs| - 1], ids); }
  }

  lemma {:induction false} WithoutUnique(rs: seq<Record>, ids: set<PskId>)
    requires Unique(rs)
    ensures Unique(Without(rs, ids))
    decreases |rs|
  {
    if rs != [] {
      var front := rs[..|rs| - 1];
      WithoutUnique(front, ids);
      WithoutMembers(front, ids);
    }
  }

  lemma {:induction false} WithoutTwice(rs: seq<Record>, a: set<PskId>, b: set<PskId>)
    ensures Without(Without(rs, a), b) == Without(rs, a + b)
    decreases |rs|
  {
    if rs != [] { WithoutTwice(rs[..|rs| - 1], a, b); }
  }

  lemma {:induction false} WithoutNone(rs: seq<Record>)
    ensures Without(rs, {}) == rs
    decreases |rs|
  {
    if rs != [] { WithoutNone(rs[..|rs| - 1]); }
  }

  lemma {:induction false} UniqueCount(rs: seq<Record>)
    requires Unique(rs)
    ensures |Ids(rs)| == |rs|
    decreases |rs|
  {
    if rs != [] {
      var front, last := rs[..|rs| - 1], rs[|rs| - 1];
      UniqueCount(front);
      assert Ids(rs) == Ids(front) + {last.pskId};
      assert last.pskId !in Ids(front);
    }
  }

  lemma WithoutCount(rs: seq<Record>, ids: set<PskId>)
    requires Unique(rs)
    ensures |Without(rs, ids)| == |rs| - |ids * Ids(rs)|
  {
    WithoutMembers(rs, ids);
    WithoutUnique(rs, ids);
    UniqueCount(rs);
    UniqueCount(Without(rs, ids));
    assert Ids(Without(rs, ids)) == Ids(rs) - ids * Ids(rs);
  }

  lemma SameRecord(rs: seq<Record>, a: Record, b: Record)
    requires Unique(rs) && a in rs && b in rs && a.pskId == b.pskId
    ensures a == b
  {
  }

  lemma PutMembers(rs: seq<Record>, r: Record)
    requires Unique(rs)
    ensures Unique(Put(rs, r))
    ensures forall x :: x in Put(rs, r) <==> x == r || (x in rs && x.pskId != r.pskId)
  {
    var i, after := Find(rs, r.pskId), Put(rs, r);
    if i < |rs| {
      forall x ensures x in after <==> x == r || (x in rs && x.pskId != r.pskId) {
        if x in rs && x.pskId != r.pskId {
          var j :| 0 <= j < |rs| && rs[j] == x;
          assert after[j] == x;
        }
        if x in after && x != r {
          var j :| 0 <= j < |after| && after[j] == x;
          assert rs[j] == x;
        }
        assert after[i] == r;
      }
    }
  }

  // ---------------------------------------------------------------- eviction order

  predicate StoredBefore(rs: seq<Record>, a: Record, b: Record) {
    exists i, j :: 0 <= i < j < |rs| && rs[i] == a && rs[j] == b
  }

  /** `a` is evicted before `b`: used less recently, or stored earlier when used at the same time. */
  predicate Older(rs: seq<Record>, a: Record, b: Record) {
    a.lastUsedAt < b.lastUsedAt || (a.lastUsedAt == b.lastUsedAt && StoredBefore(rs, a, b))
  }

  predicate OrderedByUse(rs: seq<Record>, t: seq<Record>) {
    forall i, j :: 0 <= i < j < |t| ==> Older(rs, t[i], t[j])
  }

  function InsertByUse(t: seq<Record>, r: Record): seq<Record> {
    if t == [] || t[|t| - 1].lastUsedAt <= r.lastUsedAt then t + [r]
    else InsertByUse(t[..|t| - 1], r) + [t[|t| - 1]]
  }

  /** The stable sort by last use. */
  function SortedByUse(rs: seq<Record>): seq<Record> {
    if rs == [] then [] else InsertByUse(SortedByUse(rs[..|rs| - 1]), rs[|rs| - 1])
  }

  lemma {:induction false} InsertMembers(t: seq<Record>, r: Record)
    ensures |InsertByUse(t, r)| == |t| + 1
    ensures forall x :: x in InsertByUse(t, r) <==> x in t || x == r
    decreases |t|
  {
    if t != [] && t[|t| - 1].lastUsedAt > r.lastUsedAt { InsertMembers(t[..|t| - 1], r); }
  }

  lemma {:induction false} InsertOrdered(rs: seq<Record>, t: seq<Record>, r: Record)
    requires OrderedByUse(rs, t)
    requires forall x :: x in t ==> StoredBefore(rs, x, r)
    ensures OrderedByUse(rs, InsertByUse(t, r))
    decreases |t|
  {
    if t != [] {
      var front, last := t[..|t| - 1], t[|t| - 1];
      if last.lastUsedAt > r.lastUsedAt {
        InsertOrdered(rs, front, r);
        InsertMembers(front, r);
        assert t == front + [last];
        OlderThanLast(rs, front, last, r);
      } else {
        forall i | 0 <= i < |t| ensures Older(rs, t[i], r) {
          assert t[i].lastUsedAt <= last.lastUsedAt;
        }
      }
    }
  }

  lemma OlderThanLast(rs: seq<Record>, front: seq<Record>, last: Record, r: Record)
    requires OrderedByUse(rs, front + [last]) && last.lastUsedAt > r.lastUsedAt
    ensures Older(rs, r, last)
    ensures forall x :: x in front ==> Older(rs, x, last)
  {
    forall x | x in front ensures Older(rs, x, last) {
      var i :| 0 <= i < |front| && front[i] == x;
      assert (front + [last])[i] == x && (front + [last])[|front|] == last;
    }
  }

  lemma StoredBeforeExtends(rs: seq<Record>, more: seq<Record>, a: Record, b: Record)
    requires StoredBefore(rs, a, b)
    ensures StoredBefore(rs + more, a, b)
  {
    var i, j :| 0 <= i < j < |rs| && rs[i] == a && rs[j] == b;
    assert (rs + more)[i] == a && (rs + more)[j] == b;
  }

  lemma {:induction false} SortedSorts(rs: seq<Record>)
    ensures |SortedByUse(rs)| == |rs|
    ensures forall x :: x in SortedByUse(rs) <==> x in rs
    ensures OrderedByUse(rs, SortedByUse(rs))
    decreases |rs|
  {
    if rs != [] {
      var front, last := rs[..|rs| - 1], rs[|rs| - 1];
      assert rs == front + [last];
      SortedSorts(front);
      InsertMembers(SortedByUse(front), last);
      OrderedExtends(front, [last], SortedByUse(front));
      forall x | x in SortedByUse(front) ensures StoredBefore(rs, x, last) {
        var i :| 0 <= i < |front| && front[i] == x;
        assert rs[i] == x && rs[|rs| - 1] == last;
      }
      InsertOrdered(rs, SortedByUse(front), last);
    }
  }

  lemma OrderedExtends(rs: seq<Record>, more: seq<Record>, t: seq<Record>)
    requires OrderedByUse(rs, t)
    ensures OrderedByUse(rs + more, t)
  {
    forall i, j | 0 <= i < j < |t| ensures Older(rs + more, t[i], t[j]) {
      if t[i].lastUsedAt == t[j].lastUsedAt { StoredBeforeExtends(rs, more, t[i], t[j]); }
    }
  }

  /** The sort is a permutation of distinct records. */
  lemma SortedUnique(rs: seq<Record>)
    requires Unique(rs)
    ensures Unique(SortedByUse(rs)) && Ids(SortedByUse(rs)) == Ids(rs)
  {
    SortedSorts(rs);
    var t := SortedByUse(rs);
    assert Ids(t) == Ids(rs);
    UniqueCount(rs);
    DistinctByCount(t);
  }

  lemma {:induction false} DistinctByCount(t: seq<Record>)
    requires |Ids(t)| == |t|
    ensures Unique(t)
    decreases |t|
  {
    if t != [] {
      var front, last := t[..|t| - 1], t[|t| - 1];
      assert Ids(t) == Ids(front) + {last.pskId};
      IdsAtMost(front);
      assert last.pskId in Ids(front) ==> Ids(front) + {last.pskId} == Ids(front);
      DistinctByCount(front);
    }
  }

  lemma {:induction false} IdsAtMost(t: seq<Record>)
    ensures |Ids(t)| <= |t|
    decreases |t|
  {
    if t != [] {
      IdsAtMost(t[..|t| - 1]);
      assert Ids(t) == Ids(t[..|t| - 1]) + {t[|t| - 1].pskId};
    }
  }

  lemma {:induction false} WithoutKeepsOrder(rs: seq<Record>, ids: set<PskId>, a: Record, b: Record)
    requires StoredBefore(Without(rs, ids), a, b)
    ensures StoredBefore(rs, a, b)
    decreases |rs|
  {
    var front, last := rs[..|rs| - 1], rs[|rs| - 1];
    var kept := Without(rs, ids);
    assert rs == front + [last];
    var i, j :| 0 <= i < j < |kept| && kept[i] == a && kept[j] == b;
    if last.pskId !in ids && j == |kept| - 1 {
      assert a == Without(front, ids)[i];
      WithoutMembers(front, ids);
      var k :| 0 <= k < |front| && front[k] == a;
      assert rs[k] == a && rs[|rs| - 1] == b;
    } else {
      assert Without(front, ids)[i] == a && Without(front, ids)[j] == b;
      WithoutKeepsOrder(front, ids, a, b);
      StoredBeforeExtends(front, [last], a, b);
    }
  }

  // ---------------------------------------------------------------- eviction

  function Evictable(rs: seq<Record>, keep: set<PskId>): seq<Record> { Without(rs, keep) }

  /** The records evicted to get down to `capacity`: the front of the evictable ones in eviction order. */
  function Victims(rs: seq<Record>, capacity: nat, keep: set<PskId>): seq<Record> {
    var sorted := SortedByUse(Evictable(rs, keep));
    sorted[..Min(Max(0, |rs| - capacity), |sorted|)]
  }

  ghost function Evicted(rs: seq<Record>, capacity: nat, keep: set<PskId>): seq<Record> {
    Without(rs, Ids(Victims(rs, capacity, keep)))
  }

  /** Exactly the least recently used evictable records go. */
  lemma EvictsLeastRecentlyUsed(rs: seq<Record>, capacity: nat, keep: set<PskId>, gone: Record, stays: Record)
    requires Unique(rs) && gone in rs && stays in rs
    requires gone !in Evicted(rs, capacity, keep) && stays in Evicted(rs, capacity, keep)
    ensures gone.pskId !in keep
    ensures stays.pskId in keep || Older(rs, gone, stays)
  {
    var evictable := Evictable(rs, keep);
    var sorted, victims := SortedByUse(evictable), Victims(rs, capacity, keep);
    WithoutMembers(rs, Ids(victims));
    WithoutMembers(rs, keep);
    SortedSorts(evictable);
    var v :| v in victims && v.pskId == gone.pskId;
    assert v in sorted;
    SameRecord(rs, v, gone);
    if stays.pskId !in keep {
      assert stays !in victims;
      var i :| 0 <= i < |victims| && victims[i] == gone;
      var j :| 0 <= j < |sorted| && sorted[j] == stays;
      assert victims == sorted[..|victims|];
      assert Older(evictable, sorted[i], sorted[j]);
      if gone.lastUsedAt == stays.lastUsedAt { WithoutKeepsOrder(rs, keep, gone, stays); }
    }
  }

  /** No kept record goes, and the table shrinks to the capacity or to the kept records, whichever is more. */
  lemma EvictedIsExact(rs: seq<Record>, capacity: nat, keep: set<PskId>)
    requires Unique(rs)
    ensures var after := Evicted(rs, capacity, keep);
      && Unique(after)
      && (forall r :: r in after ==> r in rs)
      && (forall r :: r in rs && r.pskId in keep ==> r in after)
      && |after| == Min(|rs|, Max(capacity, |keep * Ids(rs)|))
  {
    var evictable, victims := Evictable(rs, keep), Victims(rs, capacity, keep);
    WithoutMembers(rs, keep);
    WithoutUnique(rs, keep);
    SortedUnique(evictable);
    SortedSorts(evictable);
    WithoutMembers(rs, Ids(victims));
    WithoutUnique(rs, Ids(victims));
    WithoutCount(rs, keep);
    PrefixUnique(SortedByUse(evictable), |victims|);
    UniqueCount(victims);
    forall r | r in victims ensures r in evictable { assert r in SortedByUse(evictable); }
    assert Ids(victims) * Ids(rs) == Ids(victims);
    WithoutCount(rs, Ids(victims));
  }

  lemma PrefixUnique(t: seq<Record>, n: nat)
    requires Unique(t) && n <= |t|
    ensures Unique(t[..n])
  {
  }

  // ---------------------------------------------------------------- newest record of a server

  /** `a` is superseded by `b`: created earlier, or stored earlier when created at the same time. */
  predicate Superseded(rs: seq<Record>, a: Record, b: Record) {
    a.createdAt < b.createdAt || (a.createdAt == b.createdAt && StoredBefore(rs, a, b))
  }

  ghost predicate IsNewest(rs: seq<Record>, r: Record) {
    r in rs && forall x :: x in rs && x.serverId == r.serverId && x != r ==> Superseded(rs, x, r)
  }

  ghost predicate MapsNewest(rs: seq<Record>, newest: map<ServerId, Record>) {
    && (forall s :: s in newest ==> newest[s].serverId == s && IsNewest(rs, newest[s]))
    && (forall r :: r in rs ==> r.serverId in newest)
  }

  /** One pass that keeps, for every server, the best record seen so far. */
  method NewestPerServer(records: seq<Record>) returns (newest: map<ServerId, Record>)
    ensures MapsNewest(records, newest)
  {
    newest := map[];
    for i := 0 to |records|
      invariant MapsNewest(records[..i], newest)
    {
      ghost var before := newest;
      var record := records[i];
      if record.serverId !in newest || record.createdAt >= newest[record.serverId].createdAt {
        newest := newest[record.serverId := record];
      }
      MapsNewestStep(records[..i], record, before, newest);
      assert records[..i + 1] == records[..i] + [record];
    }
    assert records[..|records|] == records;
  }

  lemma MapsNewestStep(rs: seq<Record>, r: Record, before: map<ServerId, Record>, after: map<ServerId, Record>)
    requires MapsNewest(rs, before)
    requires after ==
      if r.serverId !in before || r.createdAt >= before[r.serverId].createdAt then before[r.serverId := r] else before
    ensures MapsNewest(rs + [r], after)
  {
    var all := rs + [r];
    forall s | s in after ensures after[s].serverId == s && IsNewest(all, after[s]) {
      forall x | x in all && x.serverId == s && x != after[s] ensures Superseded(all, x, after[s]) {
        if after[s] == r {
          var i :| 0 <= i < |rs| && rs[i] == x;
          assert all[i] == x && all[|rs|] == r;
          if s in before && x != before[s] { assert Superseded(rs, x, before[s]); }
        } else if x != r {
          assert Superseded(rs, x, before[s]);
          if x.createdAt == before[s].createdAt { StoredBeforeExtends(rs, [r], x, before[s]); }
        }
      }
    }
  }

  /** There is one newest record for every server that has any. */
  lemma NewestIsUnique(rs: seq<Record>, a: Record, b: Record)
    requires Unique(rs) && IsNewest(rs, a) && IsNewest(rs, b) && a.serverId == b.serverId
    ensures a == b
  {
    SupersededOneWay(rs, a, b);
  }

  lemma SupersededOneWay(rs: seq<Record>, a: Record, b: Record)
    requires Unique(rs)
    ensures !(Superseded(rs, a, b) && Superseded(rs, b, a))
  {
    if StoredBefore(rs, a, b) {
      var i, j :| 0 <= i < j < |rs| && rs[i] == a && rs[j] == b;
      forall k, l | 0 <= k < l < |rs| ensures !(rs[k] == b && rs[l] == a) {
      }
    }
  }

  // ---------------------------------------------------------------- what the store does

  ghost function StaleIds(rs: seq<Record>, record: Record, keep: set<PskId>): set<PskId> {
    set r | r in rs && r.serverId == record.serverId && r.pskId != record.pskId && r.pskId !in keep :: r.pskId
  }

  ghost function Replaced(rs: seq<Record>, record: Record, keep: set<PskId>, capacity: nat): seq<Record> {
    Evicted(Without(Put(rs, record), StaleIds(rs, record, keep)), capacity, {record.pskId} + keep)
  }

  ghost function SupersededIds(rs: seq<Record>, keep: set<PskId>): set<PskId> {
    set r | r in rs && !IsNewest(rs, r) && r.pskId !in keep :: r.pskId
  }

  class ClientPairingStore {
    const recordCapacity: nat
    var records: seq<Record>

    ghost predicate Valid() reads this { recordCapacity >= MIN_RECORD_CAPACITY && Unique(records) }

    constructor (capacity: nat)
      requires capacity >= MIN_RECORD_CAPACITY
      ensures Valid() && recordCapacity == capacity && records == []
    {
      recordCapacity, records := capacity, [];
    }

    method StoreRecord(record: Record)
      requires Valid()
      modifies this
      ensures Valid() && records == Put(old(records), record)
    {
      PutMembers(records, record);
      var i := Find(records, record.pskId);
      if i < |records| { records := records[i := record]; } else { records := records + [record]; }
    }

    method RemoveRecord(pskId: PskId)
      requires Valid()
      modifies this
      ensures Valid() && records == Without(old(records), {pskId})
    {
      WithoutUnique(records, {pskId});
      records := Without(records, {pskId});
    }

    /** Stores a pairing's outcome: stale records of its server go first, then whatever exceeds the capacity. */
    method ReplaceRecordForServerId(record: Record, keep: set<PskId>)
      requires Valid()
      modifies this
      ensures Valid() && records == Replaced(old(records), record, keep, recordCapacity)
    {
      var stale := [];
      for i := 0 to |records|
        invariant records == old(records)
        invariant IdSet(stale) == StaleIds(records[..i], record, keep)
      {
        var existing := records[i];
        StaleStep(records[..i], existing, record, keep);
        assert records[..i + 1] == records[..i] + [existing];
        if existing.serverId == record.serverId && existing.pskId != record.pskId && existing.pskId !in keep {
          assert IdSet(stale + [existing.pskId]) == IdSet(stale) + {existing.pskId};
          stale := stale + [existing.pskId];
        }
      }
      assert records[..|records|] == records;
      StoreRecord(record);
      RemoveAll(stale);
      EvictOverCapacity({record.pskId} + keep);
    }

    method RemoveAll(pskIds: seq<PskId>)
      requires Valid()
      modifies this
      ensures Valid() && records == Without(old(records), IdSet(pskIds))
    {
      WithoutNone(records);
      assert IdSet(pskIds[..0]) == {};
      for i := 0 to |pskIds|
        invariant Valid() && records == Without(old(records), IdSet(pskIds[..i]))
      {
        WithoutTwice(old(records), IdSet(pskIds[..i]), {pskIds[i]});
        assert IdSet(pskIds[..i + 1]) == IdSet(pskIds[..i]) + {pskIds[i]};
        RemoveRecord(pskIds[i]);
      }
      assert pskIds[..|pskIds|] == pskIds;
    }

    method EvictOverCapacity(keep: set<PskId>)
      requires Valid()
      modifies this
      ensures Valid() && records == Evicted(old(records), recordCapacity, keep)
    {
      var excess := |records| - recordCapacity;
      if excess <= 0 {
        WithoutNone(records);
        assert Ids(Victims(records, recordCapacity, keep)) == {};
        return;
      }
      var evictable := SortedByUse(Evictable(records, keep));
      var victims := evictable[..Min(excess, |evictable|)];
      var pskIds := seq(|victims|, i requires 0 <= i < |victims| => victims[i].pskId);
      IdSetOf(victims, pskIds);
      RemoveAll(pskIds);
    }

    /** Leaves the newest record of each server, and whatever is protected. */
    method RemoveSupersededRecords(keep: set<PskId>)
      requires Valid()
      modifies this
      ensures Valid() && records == Without(old(records), SupersededIds(old(records), keep))
    {
      var listed := records;
      var newest := NewestPerServer(listed);
      WithoutNone(records);
      ghost var removed: set<PskId> := {};
      for i := 0 to |listed|
        invariant Valid() && records == Without(listed, removed)
        invariant removed == PassedIds(listed, keep, i)
      {
        var record := listed[i];
        NewestIfMapped(listed, newest, record);
        if newest[record.serverId] != record && record.pskId !in keep {
          WithoutTwice(listed, removed, {record.pskId});
          removed := removed + {record.pskId};
          RemoveRecord(record.pskId);
        }
        PassedStep(listed, keep, i);
      }
      PassedAll(listed, keep);
    }
  }

  function IdSet(pskIds: seq<PskId>): set<PskId> { set p | p in pskIds }

  ghost function PassedIds(rs: seq<Record>, keep: set<PskId>, n: nat): set<PskId>
    requires n <= |rs|
  {
    set i | 0 <= i < n && !IsNewest(rs, rs[i]) && rs[i].pskId !in keep :: rs[i].pskId
  }

  lemma PassedStep(rs: seq<Record>, keep: set<PskId>, n: nat)
    requires n < |rs|
    ensures PassedIds(rs, keep, n + 1) == PassedIds(rs, keep, n) +
      (if !IsNewest(rs, rs[n]) && rs[n].pskId !in keep then {rs[n].pskId} else {})
  {
  }

  lemma PassedAll(rs: seq<Record>, keep: set<PskId>)
    ensures PassedIds(rs, keep, |rs|) == SupersededIds(rs, keep)
  {
    forall r | r in rs && !IsNewest(rs, r) && r.pskId !in keep ensures r.pskId in PassedIds(rs, keep, |rs|) {
      var i :| 0 <= i < |rs| && rs[i] == r;
    }
  }

  lemma StaleStep(rs: seq<Record>, r: Record, record: Record, keep: set<PskId>)
    ensures StaleIds(rs + [r], record, keep) == StaleIds(rs, record, keep) +
      (if r.serverId == record.serverId && r.pskId != record.pskId && r.pskId !in keep then {r.pskId} else {})
  {
  }

  lemma IdSetOf(rs: seq<Record>, pskIds: seq<PskId>)
    requires |pskIds| == |rs| && forall i :: 0 <= i < |rs| ==> pskIds[i] == rs[i].pskId
    ensures IdSet(pskIds) == Ids(rs)
  {
    forall r | r in rs ensures r.pskId in pskIds {
      var i :| 0 <= i < |rs| && rs[i] == r;
      assert pskIds[i] == r.pskId;
    }
  }

  lemma NewestIfMapped(rs: seq<Record>, newest: map<ServerId, Record>, r: Record)
    requires Unique(rs) && MapsNewest(rs, newest) && r in rs
    ensures newest[r.serverId] == r <==> IsNewest(rs, r)
  {
    if IsNewest(rs, r) { NewestIsUnique(rs, newest[r.serverId], r); }
  }

  // ---------------------------------------------------------------- what storing a pairing keeps

  /** The records a pairing may not evict: the new one, and the stored ones that back open connections. */
  ghost function KeptIds(rs: seq<Record>, record: Record, keep: set<PskId>): set<PskId> {
    {record.pskId} + keep * Ids(rs)
  }

  /** A stored record that the new one neither replaces nor makes stale. */
  ghost predicate Survives(rs: seq<Record>, record: Record, keep: set<PskId>, r: Record) {
    r in rs && r.pskId != record.pskId && r.pskId !in StaleIds(rs, record, keep)
  }

  lemma AfterPut(rs: seq<Record>, record: Record, keep: set<PskId>)
    requires Unique(rs)
    ensures var put := Without(Put(rs, record), StaleIds(rs, record, keep));
      && Unique(put)
      && (forall r :: r in put <==> r == record || Survives(rs, record, keep, r))
      && ({record.pskId} + keep) * Ids(put) == KeptIds(rs, record, keep)
  {
    var stale := StaleIds(rs, record, keep);
    PutMembers(rs, record);
    WithoutMembers(Put(rs, record), stale);
    WithoutUnique(Put(rs, record), stale);
    var put := Without(Put(rs, record), stale);
    forall r | r in rs && r.pskId in keep ensures r.pskId in Ids(put) {
      forall x | x in rs && x.pskId == r.pskId ensures x == r { SameRecord(rs, x, r); }
      assert record in put;
      assert r.pskId != record.pskId ==> r in put;
    }
    assert record in put;
  }

  /**
   Storing a pairing: the new record is in, no record that backs an open connection is out, the
   server's other records are gone, and the count is at most the capacity or the kept records.
   */
  lemma ReplacedIsExact(rs: seq<Record>, record: Record, keep: set<PskId>, capacity: nat)
    requires Unique(rs)
    ensures var after := Replaced(rs, record, keep, capacity);
      && Unique(after)
      && record in after
      && (forall r :: r in after ==> r == record || (r in rs && r.pskId != record.pskId))
      && (forall r :: r in rs && r.pskId in keep && r.pskId != record.pskId ==> r in after)
      && (forall r :: r in after && r.serverId == record.serverId ==> r == record || r.pskId in keep)
      && |after| == Min(|Without(Put(rs, record), StaleIds(rs, record, keep))|,
        Max(capacity, |KeptIds(rs, record, keep)|))
  {
    var put := Without(Put(rs, record), StaleIds(rs, record, keep));
    AfterPut(rs, record, keep);
    EvictedIsExact(put, capacity, {record.pskId} + keep);
    var after := Replaced(rs, record, keep, capacity);
    forall r | r in after && r.serverId == record.serverId ensures r == record || r.pskId in keep {
      assert r in put;
    }
  }

  /** The store ends within its capacity exactly when the new record and the protected ones fit. */
  lemma FitsIff(rs: seq<Record>, record: Record, keep: set<PskId>, capacity: nat)
    requires Unique(rs)
    ensures |Replaced(rs, record, keep, capacity)| <= capacity <==> |KeptIds(rs, record, keep)| <= capacity
  {
    ReplacedIsExact(rs, record, keep, capacity);
    var put := Without(Put(rs, record), StaleIds(rs, record, keep));
    AfterPut(rs, record, keep);
    UniqueCount(put);
    SubsetCount(KeptIds(rs, record, keep), Ids(put));
  }

  /** Evictions by a pairing: every one is less recently used than every evictable record that stays. */
  lemma ReplacedEvictsLeastRecentlyUsed(
    rs: seq<Record>, record: Record, keep: set<PskId>, capacity: nat, gone: Record, stays: Record)
    requires Unique(rs) && gone in rs && gone.serverId != record.serverId && gone.pskId != record.pskId
    requires gone !in Replaced(rs, record, keep, capacity) && stays in Replaced(rs, record, keep, capacity)
    requires stays != record && stays.pskId !in keep
    ensures gone.pskId !in keep
    ensures gone.lastUsedAt < stays.lastUsedAt ||
      (gone.lastUsedAt == stays.lastUsedAt && StoredBefore(Put(rs, record), gone, stays))
  {
    var stale := StaleIds(rs, record, keep);
    var put := Without(Put(rs, record), stale);
    AfterPut(rs, record, keep);
    ReplacedIsExact(rs, record, keep, capacity);
    forall r | r in rs && r.pskId == gone.pskId ensures r == gone { SameRecord(rs, r, gone); }
    EvictedIsExact(put, capacity, {record.pskId} + keep);
    EvictsLeastRecentlyUsed(put, capacity, {record.pskId} + keep, gone, stays);
    assert stays.pskId != record.pskId by {
      if stays.pskId == record.pskId { SameRecord(put, stays, record); }
    }
    if gone.lastUsedAt == stays.lastUsedAt { WithoutKeepsOrder(Put(rs, record), stale, gone, stays); }
  }

  /** Afterwards the newest record of the server is the new one, unless a protected one was created later. */
  lemma ReplacedIsNewest(rs: seq<Record>, record: Record, keep: set<PskId>, capacity: nat)
    requires Unique(rs) && record.pskId !in Ids(rs)
    requires forall r :: r in rs && r.serverId == record.serverId && r.pskId in keep ==> r.createdAt < record.createdAt
    ensures IsNewest(Replaced(rs, record, keep, capacity), record)
  {
    ReplacedIsExact(rs, record, keep, capacity);
  }

  /** Removing superseded records leaves, besides protected ones, just the newest record of each server. */
  lemma SupersededIsExact(rs: seq<Record>, keep: set<PskId>, r: Record)
    requires Unique(rs)
    ensures r in Without(rs, SupersededIds(rs, keep)) <==> r in rs && (IsNewest(rs, r) || r.pskId in keep)
  {
    WithoutMembers(rs, SupersededIds(rs, keep));
    forall x | x in rs && r in rs && x.pskId == r.pskId ensures x == r { SameRecord(rs, x, r); }
  }

  // ---------------------------------------------------------------- connection slots

  type ConnectionId(==, !new)

  datatype PskCategory = Sentinel | PairingKey | LongTerm

  datatype Activity = Playback | Pairing

  datatype Psk = Psk(category: PskCategory, pskId: PskId)

  /** A connection: its session's key, the record a handshake in progress resolved, and its activities. */
  datatype Connection = Connection(session: Option<Psk>, resolving: Option<PskId>, activities: set<Activity>)

  function RecordIds(c: Connection): set<PskId> {
    (if c.session.Some? && c.session.value.category == LongTerm then {c.session.value.pskId} else {})
    + (if c.resolving.Some? then {c.resolving.value} else {})
  }

  predicate ActivitiesAllowed(category: PskCategory, activities: set<Activity>, unpairedAccess: bool) {
    if category == LongTerm then activities <= {Playback}
    else if unpairedAccess then activities <= {Playback, Pairing}
    else activities <= {Pairing}
  }

  /** The connection runs a pairing: its activities allow one, and it is not in a handshake, which ends the attempt. */
  predicate Pairs(c: Connection, unpairedAccess: bool) {
    && Pairing in c.activities
    && c.session.Some?
    && ActivitiesAllowed(c.session.value.category, c.activities, unpairedAccess)
    && c.resolving.None?
  }

  datatype SlotStep =
    | Dial(id: ConnectionId)          // claims a slot or fails
    | Accept(id: ConnectionId)        // provisional even without a slot
    | EndAdmission(id: ConnectionId, connected: bool)
    | Close(id: ConnectionId)

  datatype Slots = Slots(held: set<ConnectionId>, provisional: set<ConnectionId>)

  function Claim(s: Slots, id: ConnectionId, capacity: nat): Slots {
    if |s.held| >= capacity - 1 then s else s.(held := s.held + {id})
  }

  function SlotsAfter(s: Slots, step: SlotStep, capacity: nat): Slots {
    match step
    case Dial(id) =>
      if |s.held| >= capacity - 1 then s else Slots(s.held + {id}, s.provisional + {id})
    case Accept(id) =>
      var claimed := Claim(s, id, capacity);
      claimed.(provisional := claimed.provisional + {id})
    case EndAdmission(id, connected) =>
      Slots(if connected then s.held else s.held - {id}, s.provisional - {id})
    case Close(id) =>
      Slots(s.held - {id}, s.provisional - {id})
  }

  function SlotRun(steps: seq<SlotStep>, capacity: nat): Slots {
    if steps == [] then Slots({}, {})
    else SlotsAfter(SlotRun(steps[..|steps| - 1], capacity), steps[|steps| - 1], capacity)
  }

  class ConnectionSlots {
    const capacity: nat
    var held: set<ConnectionId>
    var provisional: set<ConnectionId>

    ghost function AsSlots(): Slots reads this { Slots(held, provisional) }

    constructor (recordCapacity: nat)
      ensures capacity == recordCapacity && AsSlots() == Slots({}, {})
    {
      capacity, held, provisional := recordCapacity, {}, {};
    }

    method ClaimConnectionSlot(id: ConnectionId) returns (claimed: bool)
      modifies this
      ensures AsSlots() == Claim(old(AsSlots()), id, capacity)
      ensures claimed <==> |old(held)| < capacity - 1
    {
      if |held| >= capacity - 1 { return false; }
      held := held + {id};
      return true;
    }

    method BeginDial(id: ConnectionId) returns (started: bool)
      modifies this
      ensures AsSlots() == SlotsAfter(old(AsSlots()), Dial(id), capacity)
      ensures started <==> |old(held)| < capacity - 1
    {
      started := ClaimConnectionSlot(id);
      if started { provisional := provisional + {id}; }
    }

    method BeginAccept(id: ConnectionId)
      modifies this
      ensures AsSlots() == SlotsAfter(old(AsSlots()), Accept(id), capacity)
    {
      var _ := ClaimConnectionSlot(id);
      provisional := provisional + {id};
    }

    method Finish(id: ConnectionId, connected: bool)
      modifies this
      ensures AsSlots() == SlotsAfter(old(AsSlots()), EndAdmission(id, connected), capacity)
    {
      provisional := provisional - {id};
      if !connected { held := held - {id}; }
    }

    method OnConnectionClosed(id: ConnectionId)
      modifies this
      ensures AsSlots() == SlotsAfter(old(AsSlots()), Close(id), capacity)
    {
      provisional := provisional - {id};
      held := held - {id};
    }
  }

  ghost function BackingIds(ids: set<ConnectionId>, connections: map<ConnectionId, Connection>): set<PskId>
    requires ids <= connections.Keys
  {
    set id, p | id in ids && p in RecordIds(connections[id]) :: p
  }

  /** What evictions must spare: the records behind any connection, whether it has a slot or not. */
  ghost function ProtectedIds(s: Slots, connections: map<ConnectionId, Connection>): set<PskId> {
    BackingIds((s.held + s.provisional) * connections.Keys, connections)
  }

  lemma {:induction false} SlotsBounded(steps: seq<SlotStep>, capacity: nat)
    requires capacity >= 1
    ensures |SlotRun(steps, capacity).held| <= capacity - 1
    decreases |steps|
  {
    if steps != [] {
      var before, step := SlotRun(steps[..|steps| - 1], capacity), steps[|steps| - 1];
      SlotsBounded(steps[..|steps| - 1], capacity);
      SubsetCount(before.held - {step.id}, before.held);
    }
  }

  predicate SlotFree(s: Slots, capacity: nat) { |s.held| < capacity - 1 }

  predicate Frees(step: SlotStep, id: ConnectionId) { step == Close(id) || step == EndAdmission(id, false) }

  predicate EndsProvision(step: SlotStep, id: ConnectionId) {
    step == Close(id) || step == EndAdmission(id, false) || step == EndAdmission(id, true)
  }

  ghost predicate HoldsSince(steps: seq<SlotStep>, id: ConnectionId, i: nat, capacity: nat) {
    && i < |steps| && Claims(steps[i], id)
    && SlotFree(SlotRun(steps[..i], capacity), capacity)
    && forall j :: i < j < |steps| ==> !Frees(steps[j], id)
  }

  ghost predicate ProvisionalSince(steps: seq<SlotStep>, id: ConnectionId, i: nat, capacity: nat) {
    && i < |steps|
    && (steps[i] == Accept(id) || (steps[i] == Dial(id) && SlotFree(SlotRun(steps[..i], capacity), capacity)))
    && forall j :: i < j < |steps| ==> !EndsProvision(steps[j], id)
  }

  lemma HoldsBefore(steps: seq<SlotStep>, id: ConnectionId, i: nat, capacity: nat)
    requires i < |steps| - 1
    ensures HoldsSince(steps, id, i, capacity) <==>
      (HoldsSince(steps[..|steps| - 1], id, i, capacity) && !Frees(steps[|steps| - 1], id))
  {
    var front := steps[..|steps| - 1];
    assert steps[..i] == front[..i];
    assert forall j :: 0 <= j < |front| ==> steps[j] == front[j];
  }

  lemma ProvisionalBefore(steps: seq<SlotStep>, id: ConnectionId, i: nat, capacity: nat)
    requires i < |steps| - 1
    ensures ProvisionalSince(steps, id, i, capacity) <==>
      (ProvisionalSince(steps[..|steps| - 1], id, i, capacity) && !EndsProvision(steps[|steps| - 1], id))
  {
    var front := steps[..|steps| - 1];
    assert steps[..i] == front[..i];
    assert forall j :: 0 <= j < |front| ==> steps[j] == front[j];
  }

  predicate Claims(step: SlotStep, id: ConnectionId) { step == Dial(id) || step == Accept(id) }

  lemma SlotStepIff(s: Slots, step: SlotStep, id: ConnectionId, capacity: nat)
    ensures var after := SlotsAfter(s, step, capacity);
      && (id in after.held <==> (id in s.held && !Frees(step, id)) || (Claims(step, id) && SlotFree(s, capacity)))
      && (id in after.provisional <==>
           ((id in s.provisional && !EndsProvision(step, id))
            || step == Accept(id) || (step == Dial(id) && SlotFree(s, capacity))))
  {
  }

  lemma HoldsLongerIff(steps: seq<SlotStep>, id: ConnectionId, capacity: nat)
    requires steps != []
    ensures var front, last := steps[..|steps| - 1], steps[|steps| - 1];
      (exists i :: HoldsSince(steps, id, i, capacity)) <==>
        || ((exists i :: HoldsSince(front, id, i, capacity)) && !Frees(last, id))
        || (Claims(last, id) && SlotFree(SlotRun(front, capacity), capacity))
  {
    var n := |steps| - 1;
    forall i: nat | i < n
      ensures HoldsSince(steps, id, i, capacity) <==>
        (HoldsSince(steps[..n], id, i, capacity) && !Frees(steps[n], id))
    {
      HoldsBefore(steps, id, i, capacity);
    }
    assert HoldsSince(steps, id, n, capacity)
      <==> Claims(steps[n], id) && SlotFree(SlotRun(steps[..n], capacity), capacity);
  }

  lemma ProvisionalLongerIff(steps: seq<SlotStep>, id: ConnectionId, capacity: nat)
    requires steps != []
    ensures var front, last := steps[..|steps| - 1], steps[|steps| - 1];
      (exists i :: ProvisionalSince(steps, id, i, capacity)) <==>
        || ((exists i :: ProvisionalSince(front, id, i, capacity)) && !EndsProvision(last, id))
        || last == Accept(id) || (last == Dial(id) && SlotFree(SlotRun(front, capacity), capacity))
  {
    var n := |steps| - 1;
    forall i: nat | i < n
      ensures ProvisionalSince(steps, id, i, capacity) <==>
        (ProvisionalSince(steps[..n], id, i, capacity) && !EndsProvision(steps[n], id))
    {
      ProvisionalBefore(steps, id, i, capacity);
    }
    assert ProvisionalSince(steps, id, n, capacity) <==>
      steps[n] == Accept(id) || (steps[n] == Dial(id) && SlotFree(SlotRun(steps[..n], capacity), capacity));
  }

  /** A connection has a slot exactly from a dial or accept that found one free until it closes or is not admitted. */
  lemma {:induction false} SlotIff(steps: seq<SlotStep>, id: ConnectionId, capacity: nat)
    ensures id in SlotRun(steps, capacity).held <==> exists i :: HoldsSince(steps, id, i, capacity)
    decreases |steps|
  {
    if steps != [] {
      var front := steps[..|steps| - 1];
      SlotIff(front, id, capacity);
      SlotStepIff(SlotRun(front, capacity), steps[|steps| - 1], id, capacity);
      HoldsLongerIff(steps, id, capacity);
    }
  }

  /** It is provisional exactly from an accept, or such a dial, until its admission ends or it closes. */
  lemma {:induction false} ProvisionalIff(steps: seq<SlotStep>, id: ConnectionId, capacity: nat)
    ensures id in SlotRun(steps, capacity).provisional <==> exists i :: ProvisionalSince(steps, id, i, capacity)
    decreases |steps|
  {
    if steps != [] {
      var front := steps[..|steps| - 1];
      ProvisionalIff(front, id, capacity);
      SlotStepIff(SlotRun(front, capacity), steps[|steps| - 1], id, capacity);
      ProvisionalLongerIff(steps, id, capacity);
    }
  }

  lemma {:induction false} BackingCount(ids: set<ConnectionId>, connections: map<ConnectionId, Connection>)
    requires ids <= connections.Keys
    requires forall id :: id in ids ==> |RecordIds(connections[id])| <= 1
    ensures |BackingIds(ids, connections)| <= |ids|
    decreases |ids|
  {
    if ids == {} {
      assert BackingIds(ids, connections) == {};
    } else {
      var x :| x in ids;
      BackingCount(ids - {x}, connections);
      BackingStep(ids, connections, x);
      UnionCount(BackingIds(ids - {x}, connections), RecordIds(connections[x]));
    }
  }

  lemma BackingStep(ids: set<ConnectionId>, connections: map<ConnectionId, Connection>, x: ConnectionId)
    requires ids <= connections.Keys && x in ids
    ensures BackingIds(ids, connections) == BackingIds(ids - {x}, connections) + RecordIds(connections[x])
  {
  }

  lemma UnionCount<T>(a: set<T>, b: set<T>)
    ensures |a + b| <= |a| + |b|
  {
  }

  /** Every connection known to the client, in a slot or over the limit. */
  function Tracked(s: Slots): set<ConnectionId> { s.held + s.provisional }

  /** The stored record `pskId` keys the connection's session, or is the one its handshake is using. */
  predicate Uses(c: Connection, pskId: PskId) {
    c.session == Some(Psk(LongTerm, pskId)) || c.resolving == Some(pskId)
  }

  /** Just those records are protected that a tracked connection uses, established or in a handshake. */
  lemma ProtectedIff(s: Slots, connections: map<ConnectionId, Connection>, pskId: PskId)
    ensures pskId in ProtectedIds(s, connections) <==>
      exists id :: id in connections && (id in s.held || id in s.provisional) && Uses(connections[id], pskId)
  {
    if pskId in ProtectedIds(s, connections) {
      var id :| id in (s.held + s.provisional) * connections.Keys && pskId in RecordIds(connections[id]);
      assert Uses(connections[id], pskId);
    }
    if id :| id in connections && (id in s.held || id in s.provisional) && Uses(connections[id], pskId) {
      assert id in (s.held + s.provisional) * connections.Keys && pskId in RecordIds(connections[id]);
    }
  }

  /**
   No pairing takes the record of a connection away: one that a tracked connection uses is still stored
   afterwards, whatever the capacity, unless the new record replaced it under its own key.
   */
  lemma UsedRecordsSurvive(
    s: Slots, connections: map<ConnectionId, Connection>, id: ConnectionId,
    rs: seq<Record>, record: Record, capacity: nat, used: Record)
    requires Unique(rs) && used in rs && used.pskId != record.pskId
    requires id in connections && (id in s.held || id in s.provisional) && Uses(connections[id], used.pskId)
    ensures used in Replaced(rs, record, ProtectedIds(s, connections), capacity)
  {
    ProtectedIff(s, connections, used.pskId);
    ReplacedIsExact(rs, record, ProtectedIds(s, connections), capacity);
  }

  /** Nor does clearing superseded records, as when a connection closes. */
  lemma UsedRecordsNotSuperseded(
    s: Slots, connections: map<ConnectionId, Connection>, id: ConnectionId, rs: seq<Record>, used: Record)
    requires Unique(rs) && used in rs
    requires id in connections && (id in s.held || id in s.provisional) && Uses(connections[id], used.pskId)
    ensures used in Without(rs, SupersededIds(rs, ProtectedIds(s, connections)))
  {
    ProtectedIff(s, connections, used.pskId);
    SupersededIsExact(rs, ProtectedIds(s, connections), used);
  }

  /** Playing takes a long-term session or unpaired access, and pairing a session that is not long-term. */
  lemma AllowedIff(category: PskCategory, activities: set<Activity>, unpairedAccess: bool)
    ensures ActivitiesAllowed(category, activities, unpairedAccess) <==>
      && (Playback in activities ==> category == LongTerm || unpairedAccess)
      && (Pairing in activities ==> category != LongTerm)
  {
    forall a | a in activities ensures a == Playback || a == Pairing {}
  }

  /**
   The world in which a pairing completes: `pairer` holds a slot and runs the pairing, and every tracked
   connection is one of `connections`.
   */
  predicate PairingOn(
    pairer: ConnectionId, s: Slots, connections: map<ConnectionId, Connection>, unpairedAccess: bool)
  {
    && pairer in s.held
    && Tracked(s) <= connections.Keys
    && Pairs(connections[pairer], unpairedAccess)
  }

  lemma PairingBacksNothing(
    pairer: ConnectionId, s: Slots, connections: map<ConnectionId, Connection>, unpairedAccess: bool)
    requires PairingOn(pairer, s, connections, unpairedAccess)
    ensures RecordIds(connections[pairer]) == {}
    ensures ProtectedIds(s, connections) == BackingIds(Tracked(s) - {pairer}, connections)
  {
    assert Tracked(s) * connections.Keys == Tracked(s);
    BackingStep(Tracked(s), connections, pairer);
  }

  /**
   A completing pairing ends within the capacity exactly when the other connections back fewer stored
   records than the capacity, the new one aside.
   */
  lemma PairingFitsIff(
    pairer: ConnectionId, s: Slots, connections: map<ConnectionId, Connection>, unpairedAccess: bool,
    rs: seq<Record>, record: Record, capacity: nat)
    requires Unique(rs) && PairingOn(pairer, s, connections, unpairedAccess)
    ensures |Replaced(rs, record, ProtectedIds(s, connections), capacity)| <= capacity
      <==> |BackingIds(Tracked(s) - {pairer}, connections) * Ids(rs) - {record.pskId}| < capacity
  {
    PairingBacksNothing(pairer, s, connections, unpairedAccess);
    var backed := BackingIds(Tracked(s) - {pairer}, connections) * Ids(rs);
    assert KeptIds(rs, record, ProtectedIds(s, connections)) == {record.pskId} + (backed - {record.pskId});
    FitsIff(rs, record, ProtectedIds(s, connections), capacity);
  }

  /**
   Over every run of dials, accepts and closes: with at most one connection over the limit, and every
   connection but the pairing one backing at most one record, a pairing ends within the capacity.
   */
  lemma PairingFits(
    steps: seq<SlotStep>, pairer: ConnectionId, connections: map<ConnectionId, Connection>, unpairedAccess: bool,
    rs: seq<Record>, record: Record, capacity: nat)
    requires capacity >= MIN_RECORD_CAPACITY && Unique(rs)
    requires var s := SlotRun(steps, capacity);
      && PairingOn(pairer, s, connections, unpairedAccess)
      && |s.provisional - s.held| <= 1
      && (forall id :: id in Tracked(s) - {pairer} ==> |RecordIds(connections[id])| <= 1)
    ensures |Replaced(rs, record, ProtectedIds(SlotRun(steps, capacity), connections), capacity)| <= capacity
  {
    var s := SlotRun(steps, capacity);
    SlotsBounded(steps, capacity);
    TrackedCount(s, pairer);
    var backed := BackingIds(Tracked(s) - {pairer}, connections);
    BackingCount(Tracked(s) - {pairer}, connections);
    SubsetCount(backed * Ids(rs) - {record.pskId}, backed);
    PairingFitsIff(pairer, s, connections, unpairedAccess, rs, record, capacity);
  }

  lemma TrackedCount(s: Slots, pairer: ConnectionId)
    requires pairer in s.held
    ensures |Tracked(s) - {pairer}| == |s.held| + |s.provisional - s.held| - 1
  {
    assert Tracked(s) == s.held + (s.provisional - s.held);
  }

  /** Every connection but the pairing one backs one record: a stored one, not the new one, and its own. */
  ghost predicate BackOneEach(
    ids: set<ConnectionId>, connections: map<ConnectionId, Connection>, rs: seq<Record>, record: Record)
    requires ids <= connections.Keys
  {
    && (forall id :: id in ids ==>
         |RecordIds(connections[id])| == 1 && RecordIds(connections[id]) <= Ids(rs) - {record.pskId})
    && (forall id, other :: id in ids && other in ids && id != other ==>
         RecordIds(connections[id]) !! RecordIds(connections[other]))
  }

  /**
   When each of the other connections backs a stored record of its own, a pairing fits exactly when the
   slots taken and the connections over the limit are together no more than the capacity.
   */
  lemma OneEachFitsIff(
    pairer: ConnectionId, s: Slots, connections: map<ConnectionId, Connection>, unpairedAccess: bool,
    rs: seq<Record>, record: Record, capacity: nat)
    requires Unique(rs) && PairingOn(pairer, s, connections, unpairedAccess)
    requires BackOneEach(Tracked(s) - {pairer}, connections, rs, record)
    ensures |Replaced(rs, record, ProtectedIds(s, connections), capacity)| <= capacity
      <==> |s.held| + |s.provisional - s.held| <= capacity
  {
    var others := Tracked(s) - {pairer};
    OneEachCount(others, connections, rs, record);
    TrackedCount(s, pairer);
    assert BackingIds(others, connections) * Ids(rs) - {record.pskId} == BackingIds(others, connections);
    PairingFitsIff(pairer, s, connections, unpairedAccess, rs, record, capacity);
  }

  lemma {:induction false} OneEachCount(
    ids: set<ConnectionId>, connections: map<ConnectionId, Connection>, rs: seq<Record>, record: Record)
    requires ids <= connections.Keys && BackOneEach(ids, connections, rs, record)
    ensures |BackingIds(ids, connections)| == |ids|
    decreases |ids|
  {
    if ids == {} {
      assert BackingIds(ids, connections) == {};
    } else {
      var x :| x in ids;
      OneEachCount(ids - {x}, connections, rs, record);
      BackingStep(ids, connections, x);
      assert BackingIds(ids - {x}, connections) !! RecordIds(connections[x]);
    }
  }

  function IdsOf(ids: seq<ConnectionId>): set<ConnectionId> { set id | id in ids }

  predicate Distinct(ids: seq<ConnectionId>) { forall i, j :: 0 <= i < j < |ids| ==> ids[i] != ids[j] }

  lemma DistinctFront(ids: seq<ConnectionId>)
    requires ids != [] && Distinct(ids)
    ensures Distinct(ids[..|ids| - 1])
    ensures IdsOf(ids) == IdsOf(ids[..|ids| - 1]) + {ids[|ids| - 1]}
    ensures ids[|ids| - 1] !in IdsOf(ids[..|ids| - 1])
  {
  }

  lemma {:induction false} DistinctCount(ids: seq<ConnectionId>)
    requires Distinct(ids)
    ensures |IdsOf(ids)| == |ids|
    decreases |ids|
  {
    if ids != [] {
      DistinctFront(ids);
      DistinctCount(ids[..|ids| - 1]);
    }
  }

  /** `pairer` is admitted, and then `ids` come in. */
  function Crowd(pairer: ConnectionId, ids: seq<ConnectionId>): seq<SlotStep> {
    if ids == [] then [Accept(pairer), EndAdmission(pairer, true)]
    else Crowd(pairer, ids[..|ids| - 1]) + [Accept(ids[|ids| - 1])]
  }

  /** `pairer` and `ids` are tracked: in slots while there are any, and over the limit from then on. */
  ghost predicate Crowded(s: Slots, pairer: ConnectionId, ids: set<ConnectionId>, capacity: nat) {
    && pairer in s.held
    && pairer !in ids
    && s.provisional == ids
    && s.held <= {pairer} + ids
    && |s.held| == Min(|ids| + 1, capacity - 1)
  }

  lemma AcceptCrowds(s: Slots, pairer: ConnectionId, ids: set<ConnectionId>, id: ConnectionId, capacity: nat)
    requires Crowded(s, pairer, ids, capacity) && id !in {pairer} + ids
    ensures Crowded(SlotsAfter(s, Accept(id), capacity), pairer, ids + {id}, capacity)
  {
  }

  lemma {:induction false} CrowdFillsSlots(pairer: ConnectionId, ids: seq<ConnectionId>, capacity: nat)
    requires capacity >= MIN_RECORD_CAPACITY
    requires pairer !in ids && Distinct(ids)
    ensures Crowded(SlotRun(Crowd(pairer, ids), capacity), pairer, IdsOf(ids), capacity)
    decreases |ids|
  {
    if ids == [] {
      CrowdStarts(pairer, capacity);
    } else {
      var front, last := ids[..|ids| - 1], ids[|ids| - 1];
      DistinctFront(ids);
      CrowdFillsSlots(pairer, front, capacity);
      SlotRunStep(Crowd(pairer, front), Accept(last), capacity);
      AcceptCrowds(SlotRun(Crowd(pairer, front), capacity), pairer, IdsOf(front), last, capacity);
    }
  }

  lemma SlotRunStep(steps: seq<SlotStep>, step: SlotStep, capacity: nat)
    ensures SlotRun(steps + [step], capacity) == SlotsAfter(SlotRun(steps, capacity), step, capacity)
  {
    assert (steps + [step])[..|steps|] == steps;
  }

  lemma CrowdStarts(pairer: ConnectionId, capacity: nat)
    requires capacity >= MIN_RECORD_CAPACITY
    ensures SlotRun(Crowd(pairer, []), capacity) == Slots({pairer}, {})
  {
    SlotRunStep([], Accept(pairer), capacity);
    SlotRunStep([Accept(pairer)], EndAdmission(pairer, true), capacity);
    assert [] + [Accept(pairer)] == [Accept(pairer)];
    assert [Accept(pairer)] + [EndAdmission(pairer, true)] == Crowd(pairer, []);
  }

  /** The pairing connection, and the others each in a handshake onto a stored record. */
  function Handshakes(pairer: ConnectionId, key: PskId, ids: seq<ConnectionId>, rs: seq<Record>)
    : (connections: map<ConnectionId, Connection>)
    requires |ids| == |rs| && Distinct(ids) && pairer !in ids
    ensures connections.Keys == {pairer} + IdsOf(ids)
  {
    (map i | 0 <= i < |ids| :: ids[i] := Connection(None, Some(rs[i].pskId), {}))
      [pairer := Connection(Some(Psk(PairingKey, key)), None, {Pairing})]
  }

  lemma HandshakesBackAll(pairer: ConnectionId, key: PskId, ids: seq<ConnectionId>, rs: seq<Record>, s: Slots)
    requires |ids| == |rs| && Distinct(ids) && pairer !in ids && IdsOf(ids) <= Tracked(s)
    ensures Ids(rs) <= ProtectedIds(s, Handshakes(pairer, key, ids, rs))
  {
    var connections := Handshakes(pairer, key, ids, rs);
    forall r | r in rs ensures r.pskId in ProtectedIds(s, connections) {
      var i :| 0 <= i < |rs| && rs[i] == r;
      assert ids[i] in Tracked(s) * connections.Keys && r.pskId in RecordIds(connections[ids[i]]);
    }
  }

  lemma OverLimitCount(s: Slots, pairer: ConnectionId, ids: set<ConnectionId>, capacity: nat)
    requires Crowded(s, pairer, ids, capacity) && capacity >= 1
    ensures |s.provisional - s.held| == |ids| + 1 - |s.held|
  {
    assert s.held + (s.provisional - s.held) == {pairer} + ids;
  }

  /**
   The capacity is exceeded in a world the client reaches: on a full store one connection pairs, in a
   slot, and as many connections as there are records come in, each in a handshake onto its own record.
   The last two of them are over the limit, yet their records are protected too.
   */
  lemma CrowdOverflows(
    pairer: ConnectionId, key: PskId, ids: seq<ConnectionId>, rs: seq<Record>, record: Record, capacity: nat)
    returns (steps: seq<SlotStep>, connections: map<ConnectionId, Connection>)
    requires capacity >= MIN_RECORD_CAPACITY && |rs| == capacity && Unique(rs)
    requires |ids| == capacity && pairer !in ids && Distinct(ids)
    requires record.pskId !in Ids(rs) && (forall r :: r in rs ==> r.serverId != record.serverId)
    ensures var s := SlotRun(steps, capacity);
      PairingOn(pairer, s, connections, false) && |s.held| == capacity - 1 && |s.provisional - s.held| == 2
    ensures forall id :: id in connections.Keys ==> |RecordIds(connections[id])| <= 1
    ensures |Replaced(rs, record, ProtectedIds(SlotRun(steps, capacity), connections), capacity)| == capacity + 1
  {
    steps, connections := Crowd(pairer, ids), Handshakes(pairer, key, ids, rs);
    var s := SlotRun(steps, capacity);
    CrowdFillsSlots(pairer, ids, capacity);
    DistinctCount(ids);
    OverLimitCount(s, pairer, IdsOf(ids), capacity);
    HandshakesBackAll(pairer, key, ids, rs, s);
    FullStoreOverflows(rs, record, ProtectedIds(s, connections), capacity);
  }

  lemma FullStoreOverflows(rs: seq<Record>, record: Record, keep: set<PskId>, capacity: nat)
    requires |rs| == capacity && Unique(rs) && Ids(rs) <= keep && record.pskId !in Ids(rs)
    requires forall r :: r in rs ==> r.serverId != record.serverId
    ensures |Replaced(rs, record, keep, capacity)| == capacity + 1
  {
    UniqueCount(rs);
    assert StaleIds(rs, record, keep) == {};
    WithoutNone(Put(rs, record));
    assert |Put(rs, record)| == capacity + 1;
    assert keep * Ids(rs) == Ids(rs);
    ReplacedIsExact(rs, record, keep, capacity);
  }
}
