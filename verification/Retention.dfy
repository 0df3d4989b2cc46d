/** "Most recent" selection: the sort / reverse / truncate / reverse pipeline of the store. */
module Retention {
  import opened Records

  /** Ascending update stamps. */
  predicate Ascending(records: seq<JobRecord>) {
    forall i, j :: 0 <= i < j < |records| ==> records[i].updatedAt <= records[j].updatedAt
  }

  /** `records` lists every entry of `jobs` once. */
  predicate Lists(jobs: JobMap, records: seq<JobRecord>) {
    && DistinctIds(records)
    && Ids(records) == jobs.Keys
    && (forall record :: record in records ==> record.id in jobs && jobs[record.id] == record)
  }

  function Min(a: nat, b: nat): nat {
    if a <= b then a else b
  }

  /**
   * The specification of a most-recent selection.  Ties between equal stamps may
   * fall either way, because the map is enumerated in an arbitrary order.
   */
  predicate MostRecent(jobs: JobMap, limit: nat, recent: seq<JobRecord>) {
    && DistinctIds(recent)
    && |recent| == Min(limit, |jobs|)
    && Ascending(recent)
    && (forall record :: record in recent ==> record.id in jobs && jobs[record.id] == record)
    && (forall id, record :: id in jobs && id !in Ids(recent) && record in recent ==>
          jobs[id].updatedAt <= record.updatedAt)
  }

  /** The same, as a set of ids that stay in the table. */
  predicate KeepsMostRecent(jobs: JobMap, limit: nat, kept: set<JobId>) {
    && kept <= jobs.Keys
    && |kept| == Min(limit, |jobs|)
    && (forall id, other :: id in jobs && id !in kept && other in kept ==>
          jobs[id].updatedAt <= jobs[other].updatedAt)
  }

  function Restrict(jobs: JobMap, kept: set<JobId>): JobMap {
    map id | id in jobs && id in kept :: jobs[id]
  }

  predicate DistinctStamps(jobs: JobMap) {
    forall a, b :: a in jobs && b in jobs && a != b ==> jobs[a].updatedAt != jobs[b].updatedAt
  }

  /** Splicing a record in between those no newer and those newer keeps the order. */
  lemma SpliceKeepsOrder(front: seq<JobRecord>, next: JobRecord, back: seq<JobRecord>)
    requires Ascending(front + back)
    requires forall record :: record in front ==> record.updatedAt <= next.updatedAt
    requires forall record :: record in back ==> next.updatedAt <= record.updatedAt
    ensures Ascending(front + [next] + back)
  {
    var before, after := front + back, front + [next] + back;
    forall i, j | 0 <= i < j < |after|
      ensures after[i].updatedAt <= after[j].updatedAt
    {
      if i != |front| && j != |front| {
        var i', j' := if i < |front| then i else i - 1, if j < |front| then j else j - 1;
        assert after[i] == before[i'] && after[j] == before[j'];
      } else if i == |front| {
        assert after[j] == back[j - |front| - 1];
      } else {
        assert after[i] == front[i];
      }
    }
  }

  lemma SpliceKeepsDistinct(front: seq<JobRecord>, next: JobRecord, back: seq<JobRecord>)
    requires DistinctIds(front + back)
    requires forall record :: record in front + back ==> record.id != next.id
    ensures DistinctIds(front + [next] + back)
  {
    var before, after := front + back, front + [next] + back;
    forall i, j | 0 <= i < j < |after|
      ensures after[i].id != after[j].id
    {
      if i != |front| && j != |front| {
        var i', j' := if i < |front| then i else i - 1, if j < |front| then j else j - 1;
        assert after[i] == before[i'] && after[j] == before[j'];
      } else if i == |front| {
        assert after[j] == before[j - 1];
      } else {
        assert after[i] == before[i];
      }
    }
  }

  /** Splicing a record in at the right index of an ascending listing. */
  lemma SpliceAt(sorted: seq<JobRecord>, at: nat, next: JobRecord)
    requires at <= |sorted| && Ascending(sorted) && DistinctIds(sorted)
    requires forall record :: record in sorted ==> record.id != next.id
    requires forall k :: 0 <= k < at ==> sorted[k].updatedAt <= next.updatedAt
    requires forall k :: at <= k < |sorted| ==> next.updatedAt <= sorted[k].updatedAt
    ensures Ascending(sorted[..at] + [next] + sorted[at..])
    ensures DistinctIds(sorted[..at] + [next] + sorted[at..])
  {
    assert sorted == sorted[..at] + sorted[at..];
    SpliceKeepsOrder(sorted[..at], next, sorted[at..]);
    SpliceKeepsDistinct(sorted[..at], next, sorted[at..]);
  }

  lemma SpliceMembers(sorted: seq<JobRecord>, at: nat, next: JobRecord, record: JobRecord)
    requires at <= |sorted|
    ensures record in sorted[..at] + [next] + sorted[at..] <==> record in sorted || record == next
  {
    assert sorted == sorted[..at] + sorted[at..];
  }

  /** One insertion step of the sort: `next` goes behind every record that is no newer. */
  method InsertByStamp(sorted: seq<JobRecord>, next: JobRecord) returns (longer: seq<JobRecord>)
    requires Ascending(sorted) && DistinctIds(sorted)
    requires forall record :: record in sorted ==> record.id != next.id
    ensures Ascending(longer) && DistinctIds(longer)
    ensures |longer| == |sorted| + 1
    ensures forall record :: record in longer <==> record in sorted || record == next
  {
    var at := |sorted|;
    while at > 0 && sorted[at - 1].updatedAt > next.updatedAt
      invariant 0 <= at <= |sorted|
      invariant forall k :: at <= k < |sorted| ==> next.updatedAt <= sorted[k].updatedAt
    {
      at := at - 1;
    }
    SpliceAt(sorted, at, next);
    longer := sorted[..at] + [next] + sorted[at..];
    forall record
      ensures record in longer <==> record in sorted || record == next
    {
      SpliceMembers(sorted, at, next, record);
    }
  }

  /** Standing in for the standard library's stable sort by key. */
  method SortByUpdatedAt(records: seq<JobRecord>) returns (sorted: seq<JobRecord>)
    requires DistinctIds(records)
    ensures Ascending(sorted)
    ensures DistinctIds(sorted) && |sorted| == |records|
    ensures forall record :: record in sorted <==> record in records
  {
    sorted := [];
    for i := 0 to |records|
      invariant Ascending(sorted)
      invariant DistinctIds(sorted) && |sorted| == i
      invariant forall record :: record in sorted <==> record in records[..i]
    {
      assert records[..i + 1] == records[..i] + [records[i]];
      sorted := InsertByStamp(sorted, records[i]);
    }
    assert records[..|records|] == records;
  }

  /** The map's values, in whatever order the map yields them. */
  method Values(jobs: JobMap) returns (records: seq<JobRecord>)
    requires KeyedById(jobs)
    ensures Lists(jobs, records) && |records| == |jobs|
  {
    records := [];
    var left := jobs.Keys;
    while left != {}
      invariant left <= jobs.Keys
      invariant DistinctIds(records)
      invariant |records| + |left| == |jobs|
      invariant forall record :: record in records ==> record.id in jobs && record.id !in left && jobs[record.id] == record
      invariant forall id :: id in jobs && id !in left ==> jobs[id] in records
    {
      var id :| id in left;
      records, left := records + [jobs[id]], left - {id};
    }
    forall id | id in jobs
      ensures id in Ids(records)
    {
      assert jobs[id] in records;
    }
  }

  lemma IndexOf(records: seq<JobRecord>, id: JobId) returns (k: nat)
    requires id in Ids(records)
    ensures k < |records| && records[k].id == id
  {
    var record :| record in records && record.id == id;
    k :| 0 <= k < |records| && records[k] == record;
  }

  /** What dropping the first `from` entries of an ascending listing keeps and loses. */
  lemma Suffix(records: seq<JobRecord>, from: nat)
    requires from <= |records| && DistinctIds(records) && Ascending(records)
    ensures DistinctIds(records[from..]) && Ascending(records[from..])
    ensures forall i :: from <= i < |records| ==> records[i] in records[from..]
    ensures forall i, record :: 0 <= i < from && record in records[from..] ==>
              records[i].updatedAt <= record.updatedAt
  {
    var tail := records[from..];
    assert forall i :: 0 <= i < |tail| ==> tail[i] == records[from + i];
    forall i | from <= i < |records|
      ensures records[i] in tail
    {
      assert tail[i - from] == records[i];
    }
  }

  lemma DroppedNoNewer(jobs: JobMap, records: seq<JobRecord>, from: nat, id: JobId, record: JobRecord)
    requires Lists(jobs, records) && Ascending(records) && from <= |records|
    requires id in jobs && id !in Ids(records[from..]) && record in records[from..]
    ensures jobs[id].updatedAt <= record.updatedAt
  {
    Suffix(records, from);
    var k := IndexOf(records, id);
    assert records[k] in records;
  }

  /** The newest entries of an ascending listing are a most-recent selection. */
  lemma NewestSuffix(jobs: JobMap, limit: nat, records: seq<JobRecord>, recent: seq<JobRecord>)
    requires Lists(jobs, records) && |records| == |jobs| && Ascending(records)
    requires recent == records[|records| - Min(limit, |records|)..]
    ensures MostRecent(jobs, limit, recent)
  {
    var from := |records| - Min(limit, |records|);
    Suffix(records, from);
    forall id, record | id in jobs && id !in Ids(recent) && record in recent
      ensures jobs[id].updatedAt <= record.updatedAt
    {
      DroppedNoNewer(jobs, records, from, id, record);
    }
  }

  /** Reversing, truncating and reversing again keeps the tail. */
  lemma ReversalsKeepTail<T>(s: seq<T>, size: nat)
    requires size <= |s|
    ensures Reversed(Reversed(s)[..size]) == s[|s| - size..]
  {
  }

  lemma SameMembersList(jobs: JobMap, listed: seq<JobRecord>, records: seq<JobRecord>)
    requires Lists(jobs, listed) && DistinctIds(records)
    requires forall record :: record in records <==> record in listed
    ensures Lists(jobs, records)
  {
    assert Ids(records) == Ids(listed);
  }

  method RecentRecords(jobs: JobMap, limit: nat) returns (recent: seq<JobRecord>)
    requires KeyedById(jobs)
    ensures MostRecent(jobs, limit, recent)
  {
    var listed := Values(jobs);
    var records := SortByUpdatedAt(listed);
    SameMembersList(jobs, listed, records);
    var newestFirst := Reversed(records);
    newestFirst := newestFirst[..Min(limit, |records|)];
    recent := Reversed(newestFirst);
    ReversalsKeepTail(records, Min(limit, |records|));
    NewestSuffix(jobs, limit, records, recent);
  }

  function Reversed<T>(s: seq<T>): (r: seq<T>)
    ensures |r| == |s|
    ensures forall i :: 0 <= i < |s| ==> r[i] == s[|s| - 1 - i]
  {
    seq(|s|, i requires 0 <= i < |s| => s[|s| - 1 - i])
  }

  /** A most-recent list and the table restricted to it say the same. */
  lemma RecentListKeeps(jobs: JobMap, limit: nat, recent: seq<JobRecord>)
    requires KeyedById(jobs) && MostRecent(jobs, limit, recent)
    ensures KeepsMostRecent(jobs, limit, Ids(recent))
  {
    DistinctIdsCount(recent);
    forall id, other | id in jobs && id !in Ids(recent) && other in Ids(recent)
      ensures jobs[id].updatedAt <= jobs[other].updatedAt
    {
      var record :| record in recent && record.id == other;
    }
  }

  lemma RestrictSize(jobs: JobMap, kept: set<JobId>)
    requires kept <= jobs.Keys
    ensures Restrict(jobs, kept).Keys == kept
    ensures |Restrict(jobs, kept)| == |kept|
  {
    var r := Restrict(jobs, kept);
    assert r.Keys == kept;
    assert |r| == |r.Keys|;
  }

  lemma SubsetSize(a: set<JobId>, b: set<JobId>)
    requires a <= b
    ensures |a| <= |b|
    ensures |a| == |b| ==> a == b
  {
    assert b == a + (b - a);
    assert |b| == |a| + |b - a|;
  }

  /** Below the limit nothing is dropped. */
  lemma NothingDropped(jobs: JobMap, limit: nat, kept: set<JobId>)
    requires KeepsMostRecent(jobs, limit, kept) && |jobs| <= limit
    ensures kept == jobs.Keys && Restrict(jobs, kept) == jobs
  {
    assert |jobs| == |jobs.Keys|;
    SubsetSize(kept, jobs.Keys);
  }

  /** A record is dropped only when `limit` other records carry stamps no older than its own. */
  lemma EvictionNeedsNewerRecords(jobs: JobMap, limit: nat, kept: set<JobId>, id: JobId)
    requires KeepsMostRecent(jobs, limit, kept)
    requires id in jobs && id !in kept
    ensures |kept| == limit < |jobs|
    ensures forall other :: other in kept ==> other != id && jobs[id].updatedAt <= jobs[other].updatedAt
  {
    if |jobs| <= limit {
      NothingDropped(jobs, limit, kept);
    }
  }

  /** With distinct stamps the selection is a function of the table. */
  lemma SelectionUnique(jobs: JobMap, limit: nat, a: set<JobId>, b: set<JobId>)
    requires KeepsMostRecent(jobs, limit, a) && KeepsMostRecent(jobs, limit, b)
    requires DistinctStamps(jobs)
    ensures a == b
  {
    if a != b {
      if a <= b {
        SubsetSize(a, b);
      } else if b <= a {
        SubsetSize(b, a);
      }
    }
  }

  /** Selecting `inner` out of a selection of `outer >= inner` is selecting `inner` at once. */
  lemma SelectionNests(jobs: JobMap, outer: nat, inner: nat, a: set<JobId>, b: set<JobId>)
    requires KeepsMostRecent(jobs, outer, a) && inner <= outer
    requires KeepsMostRecent(Restrict(jobs, a), inner, b)
    ensures KeepsMostRecent(jobs, inner, b)
    ensures Restrict(Restrict(jobs, a), b) == Restrict(jobs, b)
  {
    RestrictSize(jobs, a);
    assert |jobs| == |jobs.Keys|;
    forall id, other | id in jobs && id !in b && other in b
      ensures jobs[id].updatedAt <= jobs[other].updatedAt
    {
      if id in a {
        assert id in Restrict(jobs, a) && other in Restrict(jobs, a);
        assert Restrict(jobs, a)[id].updatedAt <= Restrict(jobs, a)[other].updatedAt;
      }
    }
  }
}
