/** Stopping the exploration of a vertex's children as soon as enough was found
    (explore_dynamically in resource/traversers/dfu_impl.cpp). */
module Exploration {
  import opened Jobspec
  import opened SlotPacking
  import opened Granules

  /** One child vertex: its type, whether it matched, and the sizes of the egroups of every type
      its match adds, its own and those merged up from below. */
  datatype Child = Child(rtype: nat, matched: bool, found: seq<seq<nat>>)

  /** All egroups of type `t` that the visited children added, in the order of the visits. */
  ghost function Gather(children: seq<Child>, visited: seq<nat>, t: nat): seq<nat>
    requires forall i :: 0 <= i < |visited| ==> visited[i] < |children| && t < |children[visited[i]].found|
  {
    if visited == [] then []
    else Gather(children, visited[..|visited| - 1], t) + children[visited[|visited| - 1]].found[t]
  }

  /** A tally has seen all of `sizes`: its completed shares are consecutive bundles, and what it
      holds toward the next share is the rest. */
  ghost predicate Tracks(tally: Tally, sizes: seq<nat>) {
    && tally.prevTotal == SumRange(sizes, 0, |sizes|)
    && (tally.perShare > 0 ==> exists at :: TracksAt(tally, sizes, at))
  }

  ghost predicate TracksAt(tally: Tally, sizes: seq<nat>, at: seq<nat>) {
    && IsCut(sizes, tally.perShare, at)
    && |at| - 1 == tally.shares
    && SumRange(sizes, at[|at| - 1], |sizes|) == tally.accum < tally.perShare
  }

  lemma {:induction false} SumRangeAppend(sizes: seq<nat>, more: seq<nat>, from: nat)
    requires from <= |sizes|
    ensures SumRange(sizes + more, from, |sizes + more|) == SumRange(sizes, from, |sizes|) + SumRange(more, 0, |more|)
    decreases |sizes| - from
  {
    if from < |sizes| {
      SumRangeAppend(sizes, more, from + 1);
    } else {
      SumRangeShift(sizes, more, 0);
    }
  }

  lemma {:induction false} SumRangeShift(sizes: seq<nat>, more: seq<nat>, k: nat)
    requires k <= |more|
    ensures SumRange(sizes + more, |sizes| + k, |sizes + more|) == SumRange(more, k, |more|)
    decreases |more| - k
  {
    if k < |more| {
      SumRangeShift(sizes, more, k + 1);
    }
  }

  lemma {:induction false} SumRangePrefix(sizes: seq<nat>, more: seq<nat>, from: nat, to: nat)
    requires from <= to <= |sizes|
    ensures SumRange(sizes + more, from, to) == SumRange(sizes, from, to)
    decreases |sizes| - from
  {
    if from < to {
      SumRangePrefix(sizes, more, from + 1, to);
    }
  }

  /** Adding everything a child found as one bundle keeps the tally in step. */
  lemma TrackMore(tally: Tally, sizes: seq<nat>, more: seq<nat>)
    requires Tracks(tally, sizes)
    ensures SumRange(sizes + more, 0, |sizes + more|) == tally.prevTotal + SumRange(more, 0, |more|)
    ensures Tracks(Observe(tally, tally.prevTotal + SumRange(more, 0, |more|)), sizes + more)
  {
    SumRangeAppend(sizes, more, 0);
    var after := Observe(tally, tally.prevTotal + SumRange(more, 0, |more|));
    if tally.perShare > 0 {
      var at: seq<nat> :| TracksAt(tally, sizes, at);
      SumRangeAppend(sizes, more, at[|at| - 1]);
      CutAppend(sizes, more, tally.perShare, at);
      if after.shares == tally.shares {
        assert TracksAt(after, sizes + more, at);
      } else {
        CutExtend(sizes + more, tally.perShare, at);
        assert TracksAt(after, sizes + more, at + [|sizes + more|]);
      }
    }
  }

  lemma CutExtend(sizes: seq<nat>, c: nat, at: seq<nat>)
    requires IsCut(sizes, c, at) && SumRange(sizes, at[|at| - 1], |sizes|) >= c
    ensures IsCut(sizes, c, at + [|sizes|])
  {}

  lemma CutAppend(sizes: seq<nat>, more: seq<nat>, c: nat, at: seq<nat>)
    requires IsCut(sizes, c, at)
    ensures IsCut(sizes + more, c, at)
  {
    forall k | 0 <= k < |at| - 1
      ensures SumRange(sizes + more, at[k], at[k + 1]) >= c
    {
      SumRangePrefix(sizes, more, at[k], at[k + 1]);
    }
  }

  /** tally_shares for one type: a total that grew since last time is one bundle. */
  function Observe(tally: Tally, total: nat): Tally {
    if total <= tally.prevTotal then tally
    else tally.(prevTotal := total).Add(total - tally.prevTotal)
  }

  ghost predicate ValidChildren(children: seq<Child>, types: nat) {
    forall i :: 0 <= i < |children| ==> |children[i].found| == types
  }

  /** tallies[type].per_share: what the last sibling of the type may ask for at most. */
  function PerShare(shape: seq<Elem>, t: nat): nat
    requires forall k :: 0 <= k < |shape| ==> shape[k].operand >= 1
  {
    if shape == [] then 0
    else
      var last := shape[|shape| - 1];
      if last.rtype == t then CalcCount(last, UINT_MAX) else PerShare(shape[..|shape| - 1], t)
  }

  lemma {:induction false} PerShareOf(shape: seq<Elem>, types: nat, k: nat)
    requires ValidShape(shape, types) && k < |shape|
    ensures PerShare(shape, shape[k].rtype) == CalcCount(shape[k], UINT_MAX)
  {
    if k < |shape| - 1 {
      assert shape[|shape| - 1].rtype != shape[k].rtype;
      PerShareOf(shape[..|shape| - 1], types, k);
    }
  }

  /** One tally per type, in step with the egroups collected so far. */
  ghost predicate TracksAll(shape: seq<Elem>, tallies: seq<Tally>, groups: seq<seq<nat>>)
    requires KnownShape(shape, |groups|)
  {
    && |tallies| == |groups|
    && forall t :: 0 <= t < |groups| ==> tallies[t].perShare == PerShare(shape, t) && Tracks(tallies[t], groups[t])
  }

  /** The collected egroups are those of the visited children, all of which matched. */
  ghost predicate Collected(children: seq<Child>, visited: seq<nat>, groups: seq<seq<nat>>)
  {
    && (forall i :: 0 <= i < |visited| ==>
          visited[i] < |children| && children[visited[i]].matched && |children[visited[i]].found| == |groups|)
    && forall t :: 0 <= t < |groups| ==> groups[t] == Gather(children, visited, t)
  }

  /** A sibling asks for type `t`, and the type has its shares. */
  ghost predicate Satisfied(shape: seq<Elem>, tallies: seq<Tally>, multiplier: nat, t: nat) {
    t < |tallies| && Asked(shape, t) > 0 && tallies[t].Satisfies(multiplier)
  }

  /** The egroups of a type can be packed into `multiplier` shares, unless no share is ever asked for. */
  ghost predicate HasShares(shape: seq<Elem>, groups: seq<seq<nat>>, multiplier: nat, t: nat)
    requires KnownShape(shape, |groups|)
  {
    var c := PerShare(shape, t);
    t < |groups| && (c == 0 || multiplier <= Shares(groups[t], 0, c))
  }

  /** explore_dynamically: children are visited until every type asked for has its shares; a child whose
      own type already has them is passed over. */
  method ExploreDynamically(children: seq<Child>, shape: seq<Elem>, types: nat, multiplier: nat)
    returns (groups: seq<seq<nat>>, enough: bool, ghost visited: seq<nat>)
    requires ValidChildren(children, types)
    requires KnownShape(shape, types)
    ensures |groups| == types && Collected(children, visited, groups)
    ensures enough ==> forall k :: 0 <= k < |shape| ==> HasShares(shape, groups, multiplier, shape[k].rtype)
    ensures !enough ==> forall i :: 0 <= i < |children| && children[i].matched && i !in visited ==>
              Asked(shape, children[i].rtype) > 0 && HasShares(shape, groups, multiplier, children[i].rtype)
  {
    groups := seq(types, t => []);
    visited := [];
    enough := false;
    var tallies := seq(types, t requires 0 <= t < types => NewTally(PerShare(shape, t)));
    var sat: set<nat> := {};
    NewTalliesTrack(shape, tallies, groups);
    for i := 0 to |children|
      invariant |groups| == types && Collected(children, visited, groups)
      invariant TracksAll(shape, tallies, groups)
      invariant forall t :: t in sat ==> Satisfied(shape, tallies, multiplier, t)
      invariant forall j :: 0 <= j < i && children[j].matched && j !in visited ==> children[j].rtype in sat
    {
      if children[i].rtype !in sat && children[i].matched {
        ghost var groups0, visited0 := groups, visited;
        groups := seq(types, t requires 0 <= t < types => groups[t] + children[i].found[t]);
        visited := visited + [i];
        CollectMore(children, visited0, groups0, i, groups);
        tallies := TallyShares(shape, tallies, groups0, children[i].found, groups, multiplier, sat);
        sat := NewSatTypes(shape, tallies, multiplier, sat);
        enough := IsEnough(shape, tallies, multiplier);
        if enough {
          break;
        }
      }
    }
    SharesAreReal(shape, tallies, groups, multiplier);
  }

  lemma NewTalliesTrack(shape: seq<Elem>, tallies: seq<Tally>, groups: seq<seq<nat>>)
    requires KnownShape(shape, |groups|) && |tallies| == |groups|
    requires forall t :: 0 <= t < |groups| ==> tallies[t] == NewTally(PerShare(shape, t)) && groups[t] == []
    ensures TracksAll(shape, tallies, groups)
  {
    forall t | 0 <= t < |groups|
      ensures Tracks(tallies[t], [])
    {
      if tallies[t].perShare > 0 {
        assert TracksAt(tallies[t], [], [0]);
      }
    }
  }

  lemma CollectMore(children: seq<Child>, visited: seq<nat>, groups: seq<seq<nat>>, i: nat, after: seq<seq<nat>>)
    requires Collected(children, visited, groups)
    requires i < |children| && children[i].matched && |children[i].found| == |groups| == |after|
    requires forall t :: 0 <= t < |groups| ==> after[t] == groups[t] + children[i].found[t]
    ensures Collected(children, visited + [i], after)
  {
    var more := visited + [i];
    assert more[..|visited|] == visited;
  }

  method TallyShares(shape: seq<Elem>, tallies: seq<Tally>, ghost before: seq<seq<nat>>, ghost found: seq<seq<nat>>,
                     groups: seq<seq<nat>>, ghost multiplier: nat, ghost sat: set<nat>)
    returns (after: seq<Tally>)
    requires KnownShape(shape, |groups|) && |before| == |found| == |groups|
    requires forall t :: 0 <= t < |groups| ==> groups[t] == before[t] + found[t]
    requires TracksAll(shape, tallies, before)
    requires forall t :: t in sat ==> Satisfied(shape, tallies, multiplier, t)
    ensures TracksAll(shape, after, groups)
    ensures forall t :: t in sat ==> Satisfied(shape, after, multiplier, t)
  {
    after := tallies;
    for t := 0 to |groups|
      invariant |after| == |tallies|
      invariant forall m :: 0 <= m < t ==>
                  && after[m].perShare == tallies[m].perShare && after[m].shares >= tallies[m].shares
                  && Tracks(after[m], groups[m])
      invariant forall m :: t <= m < |groups| ==> after[m] == tallies[m]
    {
      TrackMore(tallies[t], before[t], found[t]);
      after := after[t := Observe(after[t], Units(groups[t]))];
    }
    assert forall m :: 0 <= m < |groups| && tallies[m].Satisfies(multiplier) ==> after[m].Satisfies(multiplier);
  }

  method NewSatTypes(shape: seq<Elem>, tallies: seq<Tally>, multiplier: nat, sat: set<nat>) returns (after: set<nat>)
    requires KnownShape(shape, |tallies|)
    ensures forall t :: t in after <==> t in sat || Satisfied(shape, tallies, multiplier, t)
  {
    after := sat;
    for k := 0 to |shape|
      invariant forall t :: t in after <==> t in sat || Satisfied(shape[..k], tallies, multiplier, t)
    {
      assert shape[..k + 1][..k] == shape[..k];
      if tallies[shape[k].rtype].Satisfies(multiplier) {
        after := after + {shape[k].rtype};
      }
    }
    assert shape[..|shape|] == shape;
  }

  method IsEnough(shape: seq<Elem>, tallies: seq<Tally>, multiplier: nat) returns (enough: bool)
    requires KnownShape(shape, |tallies|)
    ensures enough <==> forall k :: 0 <= k < |shape| ==> tallies[shape[k].rtype].Satisfies(multiplier)
  {
    for k := 0 to |shape|
      invariant forall m :: 0 <= m < k ==> tallies[shape[m].rtype].Satisfies(multiplier)
    {
      if !tallies[shape[k].rtype].Satisfies(multiplier) {
        return false;
      }
    }
    return true;
  }

  /** A tally never claims more shares than the collected egroups can be packed into. */
  lemma SharesAreReal(shape: seq<Elem>, tallies: seq<Tally>, groups: seq<seq<nat>>, multiplier: nat)
    requires KnownShape(shape, |groups|) && TracksAll(shape, tallies, groups)
    ensures forall t :: 0 <= t < |groups| && tallies[t].Satisfies(multiplier) ==> HasShares(shape, groups, multiplier, t)
  {
    forall t | 0 <= t < |groups| && tallies[t].Satisfies(multiplier) && tallies[t].perShare > 0
      ensures multiplier <= Shares(groups[t], 0, tallies[t].perShare)
    {
      var at: seq<nat> :| TracksAt(tallies[t], groups[t], at);
      GreedyStaysAhead(groups[t], tallies[t].perShare, 0, at);
    }
  }

  /** Stopping early is safe: if the smallest and the largest granule of every type need the same number for
      a share, then whatever order scoring puts them in, at least `multiplier` slots can be packed. `qc` are the
      qualified counts, here all units found. */
  lemma EarlyStopStillPacks(shape: seq<Elem>, groups: seq<seq<nat>>, sorted: seq<seq<nat>>, qc: seq<nat>,
                            lo: seq<nat>, hi: seq<nat>, multiplier: nat)
    requires KnownTypes(shape, groups, qc) && ValidShape(shape, |groups|) && |sorted| == |groups| == |lo| == |hi|
    requires forall k :: 0 <= k < |shape| ==> 1 <= shape[k].min == shape[k].max <= UINT_MAX
    requires 1 <= multiplier <= UINT_MAX
    requires forall t :: 0 <= t < |groups| ==> qc[t] == Units(groups[t]) && multiset(sorted[t]) == multiset(groups[t])
    requires forall t :: 0 <= t < |groups| ==>
               1 <= lo[t] <= hi[t] && forall i :: 0 <= i < |groups[t]| ==> lo[t] <= groups[t][i] <= hi[t]
    requires forall k :: 0 <= k < |shape| ==>
               CeilDiv(shape[k].min, lo[shape[k].rtype]) == CeilDiv(shape[k].min, hi[shape[k].rtype])
    requires forall k :: 0 <= k < |shape| ==> HasShares(shape, groups, multiplier, shape[k].rtype)
    ensures multiplier <= SlotCount(shape, sorted, qc)
  {
    forall k | 0 <= k < |shape|
      ensures multiplier <= Fit(shape[k], sorted, qc)
    {
      var t := shape[k].rtype;
      PerShareOf(shape, |groups|, k);
      SharesInAnyOrder(groups[t], sorted[t], shape[k].min, lo[t], hi[t]);
      EnoughForOne(groups[t], shape[k].min);
    }
    LeastFit(shape, sorted, qc, multiplier);
  }

  lemma SharesInAnyOrder(sizes: seq<nat>, sorted: seq<nat>, c: nat, lo: nat, hi: nat)
    requires c >= 1 && 1 <= lo <= hi && CeilDiv(c, lo) == CeilDiv(c, hi) && multiset(sorted) == multiset(sizes)
    requires forall i :: 0 <= i < |sizes| ==> lo <= sizes[i] <= hi
    ensures Shares(sorted, 0, c) == Shares(sizes, 0, c)
  {
    Permuted(sizes, sorted);
    UniformShares(sizes, 0, c, lo, hi);
    UniformShares(sorted, 0, c, lo, hi);
  }

  lemma {:induction false} LeastFit(shape: seq<Elem>, sizes: seq<seq<nat>>, qc: seq<nat>, n: nat)
    requires KnownTypes(shape, sizes, qc) && n <= UINT_MAX
    requires forall k :: 0 <= k < |shape| ==> n <= Fit(shape[k], sizes, qc)
    ensures n <= SlotCount(shape, sizes, qc)
  {
    if shape != [] {
      LeastFit(shape[..|shape| - 1], sizes, qc, n);
    }
  }

  lemma EnoughForOne(sizes: seq<nat>, c: nat)
    requires c >= 1 && Shares(sizes, 0, c) >= 1
    ensures Units(sizes) >= c
  {
    BundleEndIsLeast(sizes, 0, c, |sizes|);
  }
}
