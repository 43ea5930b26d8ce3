/**
 * The job queues of qmanager/policies/base/queue_policy_base.hpp: maps from a
 * pending key to a job, modelled as sequences in key order.
 */
module PendingQueue {
  type Id = nat

  /** pending_key: priority, submit time and the order of insertion. */
  datatype Key = Key(priority: nat, submit: real, ts: nat)

  predicate Less(a: Key, b: Key) {
    || a.priority < b.priority
    || (a.priority == b.priority && (a.submit < b.submit || (a.submit == b.submit && a.ts < b.ts)))
  }

  datatype Selection = Unknown | Immediate | Backfilled | Reserved

  datatype Job = Job(key: Key, at: int, oldAt: int, reserved: bool, wasReserved: bool, selection: Selection, note: string)

  /** The first three are in key order, the last two in order of entry. */
  datatype Queues = Queues(pending: seq<Id>, provisional: seq<Id>, blocked: seq<Id>, running: seq<Id>, rejected: seq<Id>)

  // ----- Ordered queues

  predicate Before(jobs: map<Id, Job>, a: Id, b: Id) {
    a in jobs && b in jobs && Less(jobs[a].key, jobs[b].key)
  }

  /** Where a job goes in a queue that is in key order. */
  function Place(jobs: map<Id, Job>, s: seq<Id>, id: Id): seq<Id> {
    if s == [] then [id]
    else if Before(jobs, s[0], id) then [s[0]] + Place(jobs, s[1..], id)
    else [id] + s
  }

  /** std::map::merge of two queues whose keys differ. */
  function Merge(jobs: map<Id, Job>, a: seq<Id>, b: seq<Id>): seq<Id>
    decreases |b|
  {
    if b == [] then a else Merge(jobs, Place(jobs, a, b[0]), b[1..])
  }

  function Drop(s: seq<Id>, i: nat): seq<Id>
    requires i < |s|
  {
    s[..i] + s[i + 1..]
  }

  // ----- Every job in exactly one queue

  function Num(s: seq<Id>, x: Id): nat {
    multiset(s)[x]
  }

  /** How often a job occurs in pending, provisional, blocked, running and rejected together. */
  function Copies(w: Queues, x: Id): nat {
    Num(w.pending, x) + Num(w.provisional, x) + Num(w.blocked, x) + Num(w.running, x) + Num(w.rejected, x)
  }

  /** Every known job is in exactly one queue, once, and no other job is in any. */
  ghost predicate Partition(jobs: map<Id, Job>, w: Queues) {
    forall x {:trigger Copies(w, x)} :: Copies(w, x) == if x in jobs then 1 else 0
  }

  lemma {:induction false} NumPlace(jobs: map<Id, Job>, s: seq<Id>, id: Id, x: Id)
    ensures Num(Place(jobs, s, id), x) == Num(s, x) + if x == id then 1 else 0
  {
    if s != [] && Before(jobs, s[0], id) {
      NumPlace(jobs, s[1..], id, x);
      assert s == [s[0]] + s[1..];
    }
  }

  lemma {:induction false} NumMerge(jobs: map<Id, Job>, a: seq<Id>, b: seq<Id>, x: Id)
    ensures Num(Merge(jobs, a, b), x) == Num(a, x) + Num(b, x)
    decreases |b|
  {
    if b != [] {
      NumPlace(jobs, a, b[0], x);
      NumMerge(jobs, Place(jobs, a, b[0]), b[1..], x);
      assert b == [b[0]] + b[1..];
    }
  }

  lemma NumDrop(s: seq<Id>, i: nat, x: Id)
    requires i < |s|
    ensures Num(Drop(s, i), x) + (if x == s[i] then 1 else 0) == Num(s, x)
  {
    assert s == s[..i] + [s[i]] + s[i + 1..];
  }

  // ----- Order

  ghost predicate Sorted(jobs: map<Id, Job>, s: seq<Id>) {
    forall i, j :: 0 <= i < j < |s| ==> Before(jobs, s[i], s[j])
  }

  /** Insertion stamps are given out once, so no two keys are equal. */
  ghost predicate Stamped(jobs: map<Id, Job>, pqCnt: nat) {
    && (forall a :: a in jobs ==> jobs[a].key.ts < pqCnt)
    && forall a, b :: a in jobs && b in jobs && a != b ==> jobs[a].key.ts != jobs[b].key.ts
  }

  ghost predicate Ordered(jobs: map<Id, Job>, w: Queues) {
    Sorted(jobs, w.pending) && Sorted(jobs, w.provisional) && Sorted(jobs, w.blocked)
  }

  /** The elements of a queue are known and disjoint from those of another. */
  ghost predicate Apart(jobs: map<Id, Job>, a: seq<Id>, b: seq<Id>) {
    && (forall i :: 0 <= i < |a| ==> a[i] in jobs)
    && (forall i :: 0 <= i < |b| ==> b[i] in jobs)
    && forall i, j :: 0 <= i < |a| && 0 <= j < |b| ==> a[i] != b[j]
  }

  lemma {:induction false} PlaceMembers(jobs: map<Id, Job>, s: seq<Id>, id: Id)
    ensures forall x :: x in Place(jobs, s, id) ==> x == id || x in s
  {
    if s != [] && Before(jobs, s[0], id) {
      PlaceMembers(jobs, s[1..], id);
    }
  }

  lemma {:induction false} PlaceSorted(jobs: map<Id, Job>, pqCnt: nat, s: seq<Id>, id: Id)
    requires Stamped(jobs, pqCnt) && Sorted(jobs, s) && id in jobs && Apart(jobs, s, [id])
    ensures Sorted(jobs, Place(jobs, s, id))
  {
    if s != [] {
      if Before(jobs, s[0], id) {
        var rest := Place(jobs, s[1..], id);
        PlaceSorted(jobs, pqCnt, s[1..], id);
        PlaceMembers(jobs, s[1..], id);
        forall j | 0 <= j < |rest|
          ensures Before(jobs, s[0], rest[j])
        {
          assert rest[j] == id || rest[j] in s[1..];
        }
        ConsSorted(jobs, s[0], rest);
      } else {
        assert s[0] != [id][0];
        assert Before(jobs, id, s[0]);
        forall j | 0 <= j < |s|
          ensures Before(jobs, id, s[j])
        {
          assert j > 0 ==> Before(jobs, s[0], s[j]);
        }
        ConsSorted(jobs, id, s);
      }
    }
  }

  lemma ConsSorted(jobs: map<Id, Job>, x: Id, s: seq<Id>)
    requires Sorted(jobs, s) && forall j :: 0 <= j < |s| ==> Before(jobs, x, s[j])
    ensures Sorted(jobs, [x] + s)
  {}

  lemma {:induction false} MergeSorted(jobs: map<Id, Job>, pqCnt: nat, a: seq<Id>, b: seq<Id>)
    requires Stamped(jobs, pqCnt) && Sorted(jobs, a) && Sorted(jobs, b) && Apart(jobs, a, b)
    ensures Sorted(jobs, Merge(jobs, a, b))
    decreases |b|
  {
    if b != [] {
      var c := Place(jobs, a, b[0]);
      PlaceSorted(jobs, pqCnt, a, b[0]);
      PlaceMembers(jobs, a, b[0]);
      assert forall j :: 0 < j < |b| ==> Before(jobs, b[0], b[j]);
      assert forall i :: 0 <= i < |c| ==> c[i] == b[0] || c[i] in a;
      MergeSorted(jobs, pqCnt, c, b[1..]);
    }
  }

  lemma DropSorted(jobs: map<Id, Job>, s: seq<Id>, i: nat)
    requires Sorted(jobs, s) && i < |s|
    ensures Sorted(jobs, Drop(s, i))
  {}

  /** Two queues of a partition are apart. */
  lemma PartitionApart(jobs: map<Id, Job>, w: Queues)
    requires Partition(jobs, w)
    ensures Apart(jobs, w.pending, w.provisional) && Apart(jobs, w.pending, w.blocked)
  {
    forall x
      ensures x in w.pending || x in w.provisional || x in w.blocked ==> x in jobs
      ensures !(x in w.pending && x in w.provisional) && !(x in w.pending && x in w.blocked)
    {
      assert Copies(w, x) <= 1;
    }
  }

  ghost predicate SameKeys(jobs: map<Id, Job>, jobs': map<Id, Job>) {
    forall x :: x in jobs ==> x in jobs' && jobs'[x].key == jobs[x].key
  }

  lemma SortedSameKeys(jobs: map<Id, Job>, jobs': map<Id, Job>, s: seq<Id>)
    requires Sorted(jobs, s) && SameKeys(jobs, jobs')
    ensures Sorted(jobs', s)
  {
    forall i, j | 0 <= i < j < |s|
      ensures Before(jobs', s[i], s[j])
    {
      assert Before(jobs, s[i], s[j]);
    }
  }

  lemma {:induction false} MergeMembers(jobs: map<Id, Job>, a: seq<Id>, b: seq<Id>, x: Id)
    ensures x in Merge(jobs, a, b) <==> x in a || x in b
  {
    NumMerge(jobs, a, b, x);
    assert Num(Merge(jobs, a, b), x) > 0 <==> x in Merge(jobs, a, b);
    assert Num(a, x) > 0 <==> x in a;
    assert Num(b, x) > 0 <==> x in b;
  }

  lemma {:induction false} PlaceLength(jobs: map<Id, Job>, s: seq<Id>, id: Id)
    ensures |Place(jobs, s, id)| == |s| + 1
  {
    if s != [] && Before(jobs, s[0], id) {
      PlaceLength(jobs, s[1..], id);
    }
  }

  lemma {:induction false} MergeLength(jobs: map<Id, Job>, a: seq<Id>, b: seq<Id>)
    ensures |Merge(jobs, a, b)| == |a| + |b|
    decreases |b|
  {
    if b != [] {
      PlaceLength(jobs, a, b[0]);
      MergeLength(jobs, Place(jobs, a, b[0]), b[1..]);
    }
  }
}
