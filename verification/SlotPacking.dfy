/** Counting and packing slots from whole edge groups
    (resource/traversers/dfu_impl.cpp and share_tally_t in resource/traversers/dfu_impl.hpp). */
module SlotPacking {
  import opened Common
  import opened Jobspec

  // ----- Greedy bundles of whole egroups

  /** The end of the first bundle from `from`: the least `to` with enough units in between. */
  function BundleEnd(sizes: seq<nat>, from: nat, c: nat): (to: Option<nat>)
    requires from <= |sizes|
    ensures to.Some? ==> from <= to.value <= |sizes| && (c > 0 ==> from < to.value)
    decreases |sizes| - from
  {
    if c == 0 then Some(from)
    else if from == |sizes| then None
    else BundleEnd(sizes, from + 1, if c <= sizes[from] then 0 else c - sizes[from])
  }

  /** How many bundles of `c` units the greedy packing cuts from `from` on. */
  function Shares(sizes: seq<nat>, from: nat, c: nat): nat
    requires from <= |sizes| && c >= 1
    decreases |sizes| - from
  {
    match BundleEnd(sizes, from, c)
    case None => 0
    case Some(to) => 1 + Shares(sizes, to, c)
  }

  /** Where the greedy packing stands after `n` bundles. */
  function Cut(sizes: seq<nat>, c: nat, n: nat): (at: nat)
    requires c >= 1 && n <= Shares(sizes, 0, c)
    ensures at <= |sizes| && Shares(sizes, at, c) == Shares(sizes, 0, c) - n
  {
    if n == 0 then 0
    else BundleEnd(sizes, Cut(sizes, c, n - 1), c).value
  }

  function SumRange(sizes: seq<nat>, from: nat, to: nat): nat
    requires from <= to <= |sizes|
    decreases |sizes| - from
  {
    if from == to then 0 else sizes[from] + SumRange(sizes, from + 1, to)
  }

  /** A bundle ends at the first point where it has enough units. */
  lemma {:induction false} BundleEndIsLeast(sizes: seq<nat>, from: nat, c: nat, to: nat)
    requires from <= to <= |sizes|
    ensures SumRange(sizes, from, to) >= c <==> BundleEnd(sizes, from, c).Some? && BundleEnd(sizes, from, c).value <= to
    decreases |sizes| - from
  {
    if c > 0 && from < to {
      BundleEndIsLeast(sizes, from + 1, if c <= sizes[from] then 0 else c - sizes[from], to);
    }
  }

  // ----- No cut into consecutive bundles yields more

  /** Positions cutting `sizes` into consecutive bundles, each reaching `c` units. */
  ghost predicate IsCut(sizes: seq<nat>, c: nat, at: seq<nat>) {
    && at != []
    && (forall k :: 0 <= k < |at| ==> at[k] <= |sizes|)
    && forall k :: 0 <= k < |at| - 1 ==> at[k] <= at[k + 1] && SumRange(sizes, at[k], at[k + 1]) >= c
  }

  lemma {:induction false} SumRangeShrinks(sizes: seq<nat>, from: nat, mid: nat, to: nat)
    requires from <= mid <= to <= |sizes|
    ensures SumRange(sizes, from, to) >= SumRange(sizes, mid, to)
    decreases |sizes| - from
  {
    if from < mid {
      SumRangeShrinks(sizes, from + 1, mid, to);
    }
  }

  lemma {:induction false} GreedyStaysAhead(sizes: seq<nat>, c: nat, from: nat, at: seq<nat>)
    requires c >= 1 && IsCut(sizes, c, at) && from <= at[0]
    ensures |at| - 1 <= Shares(sizes, from, c)
    decreases |at|
  {
    if |at| > 1 {
      SumRangeShrinks(sizes, from, at[0], at[1]);
      BundleEndIsLeast(sizes, from, c, at[1]);
      GreedyStaysAhead(sizes, c, BundleEnd(sizes, from, c).value, at[1..]);
    }
  }

  lemma {:induction false} GreedyIsACut(sizes: seq<nat>, c: nat, from: nat) returns (at: seq<nat>)
    requires c >= 1 && from <= |sizes|
    ensures IsCut(sizes, c, at) && at[0] == from && |at| - 1 == Shares(sizes, from, c)
    decreases |sizes| - from
  {
    at := [from];
    if BundleEnd(sizes, from, c).Some? {
      var to := BundleEnd(sizes, from, c).value;
      BundleEndIsLeast(sizes, from, c, to);
      var rest := GreedyIsACut(sizes, c, to);
      at := [from] + rest;
    }
  }

  /** The greedy share count is the greatest number of consecutive bundles of `c` units. */
  lemma SharesIsGreatest(sizes: seq<nat>, c: nat)
    requires c >= 1
    ensures exists at :: IsCut(sizes, c, at) && |at| - 1 == Shares(sizes, 0, c)
    ensures forall at :: IsCut(sizes, c, at) ==> |at| - 1 <= Shares(sizes, 0, c)
  {
    var best := GreedyIsACut(sizes, c, 0);
    forall at | IsCut(sizes, c, at)
      ensures |at| - 1 <= Shares(sizes, 0, c)
    {
      GreedyStaysAhead(sizes, c, 0, at);
    }
  }

  // ----- Counting and packing

  const UINT_MAX: nat := 0xFFFF_FFFF

  /** The slots one element allows: the bundles of its count, or none if it cannot be granted. */
  function Fit(e: Elem, sizes: seq<seq<nat>>, qc: seq<nat>): nat
    requires e.operand >= 1 && e.rtype < |sizes| == |qc|
  {
    var c := CalcCount(e, qc[e.rtype]);
    if c == 0 then 0 else Shares(sizes[e.rtype], 0, c)
  }

  ghost predicate KnownTypes(shape: seq<Elem>, sizes: seq<seq<nat>>, qc: seq<nat>) {
    |sizes| == |qc| && KnownShape(shape, |sizes|)
  }

  /** The slots a shape allows: the least over its elements. */
  function SlotCount(shape: seq<Elem>, sizes: seq<seq<nat>>, qc: seq<nat>): (n: nat)
    requires KnownTypes(shape, sizes, qc)
    ensures n <= UINT_MAX
  {
    if shape == [] then UINT_MAX
    else
      var init, last := shape[..|shape| - 1], shape[|shape| - 1];
      var n, fit := SlotCount(init, sizes, qc), Fit(last, sizes, qc);
      if n > fit then fit else n
  }

  // ----- What exploring the children of a slot's vertex finds

  /** How many siblings of the shape ask for a type. */
  function Asked(shape: seq<Elem>, t: nat): nat {
    if shape == [] then 0 else Asked(shape[..|shape| - 1], t) + if shape[|shape| - 1].rtype == t then 1 else 0
  }

  /** match and test: a child is taken up only if exactly one sibling asks for its type. */
  method MatchChild(shape: seq<Elem>, t: nat) returns (matched: bool)
    ensures matched <==> Asked(shape, t) == 1
  {
    matched := false;
    for k := 0 to |shape|
      invariant Asked(shape[..k], t) == if matched then 1 else 0
    {
      assert shape[..k + 1][..k] == shape[..k];
      if shape[k].rtype == t {
        if matched {
          AskedPrefix(shape, k + 1, t);
          return false;
        }
        matched := true;
      }
    }
    assert shape[..|shape|] == shape;
  }

  lemma {:induction false} AskedPrefix(shape: seq<Elem>, k: nat, t: nat)
    requires k <= |shape|
    ensures Asked(shape[..k], t) <= Asked(shape, t)
  {
    if k == |shape| {
      assert shape[..k] == shape;
    } else {
      AskedPrefix(shape[..|shape| - 1], k, t);
      assert shape[..|shape| - 1][..k] == shape[..k];
    }
  }

  /** A child vertex below a slot: its type, its free units, and whether the rest of its visit succeeds. */
  datatype SlotChild = SlotChild(rtype: nat, avail: nat, admitted: bool)

  /** The egroups of a type: one for each child of that type whose visit succeeds, none for a refused type. */
  function Found(children: seq<SlotChild>, shape: seq<Elem>, t: nat): seq<nat> {
    if children == [] then []
    else
      var c := children[|children| - 1];
      Found(children[..|children| - 1], shape, t) +
      if c.rtype == t && c.admitted && Asked(shape, t) == 1 then [c.avail] else []
  }

  /** Nothing was found for any type. */
  predicate Barren(sizes: seq<seq<nat>>) {
    forall t :: 0 <= t < |sizes| ==> sizes[t] == []
  }

  /** explore_statically below a slot: it fails if nothing is found. */
  method ExploreSlot(children: seq<SlotChild>, shape: seq<Elem>, types: nat) returns (ok: bool, sizes: seq<seq<nat>>)
    requires forall i :: 0 <= i < |children| ==> children[i].rtype < types
    ensures ok <==> !Barren(sizes)
    ensures |sizes| == types && forall t :: 0 <= t < types ==> sizes[t] == Found(children, shape, t)
    ensures Explored(shape, sizes, seq(types, t requires 0 <= t < types => Units(sizes[t])))
  {
    ok, sizes := false, seq(types, t => []);
    for i := 0 to |children|
      invariant ok <==> exists t :: 0 <= t < |sizes| && sizes[t] != []
      invariant |sizes| == types && forall t :: 0 <= t < types ==> sizes[t] == Found(children[..i], shape, t)
    {
      assert children[..i + 1][..i] == children[..i];
      var c := children[i];
      var matched := MatchChild(shape, c.rtype);
      if matched && c.admitted {
        sizes := sizes[c.rtype := sizes[c.rtype] + [c.avail]];
        assert sizes[c.rtype] != [];
        ok := true;
      }
    }
    assert children[..|children|] == children;
    forall t | 0 <= t < types && Asked(shape, t) != 1
      ensures sizes[t] == []
    {
      NoneFound(children, shape, t);
    }
  }

  lemma {:induction false} NoneFound(children: seq<SlotChild>, shape: seq<Elem>, t: nat)
    requires Asked(shape, t) != 1
    ensures Found(children, shape, t) == []
  {
    if children != [] {
      NoneFound(children[..|children| - 1], shape, t);
    }
  }

  function Units(sizes: seq<nat>): nat {
    SumRange(sizes, 0, |sizes|)
  }

  /** The egroups, in any order, and qualified counts an exploration can leave: a type that is not asked for
      by exactly one sibling has no egroup, and no more units qualify than there are. */
  ghost predicate Explored(shape: seq<Elem>, sizes: seq<seq<nat>>, qc: seq<nat>) {
    && |sizes| == |qc|
    && (forall t :: 0 <= t < |sizes| && Asked(shape, t) != 1 ==> sizes[t] == [])
    && forall t :: 0 <= t < |sizes| ==> qc[t] <= Units(sizes[t])
  }

  /** So a shape with repeated types gets no slot: the types of any shape that gets one are distinct. */
  lemma RepeatedTypesGetNothing(shape: seq<Elem>, sizes: seq<seq<nat>>, qc: seq<nat>)
    requires KnownTypes(shape, sizes, qc) && Explored(shape, sizes, qc) && SlotCount(shape, sizes, qc) > 0
    ensures ValidShape(shape, |sizes|)
  {
    forall i, j | 0 <= i < j < |shape|
      ensures shape[i].rtype != shape[j].rtype
    {
      var t := shape[j].rtype;
      if shape[i].rtype == t {
        AskedTwice(shape, i, j, t);
        SlotCountIsLeast(shape, sizes, qc, j);
      }
    }
  }

  lemma {:induction false} AskedTwice(shape: seq<Elem>, i: nat, j: nat, t: nat)
    requires i < j < |shape| && shape[i].rtype == t == shape[j].rtype
    ensures Asked(shape, t) >= 2
  {
    var upto := shape[..j];
    AskedOnce(upto, i, t);
    assert shape[..j + 1][..j] == upto;
    AskedPrefix(shape, j + 1, t);
  }

  lemma {:induction false} AskedOnce(shape: seq<Elem>, i: nat, t: nat)
    requires i < |shape| && shape[i].rtype == t
    ensures Asked(shape, t) >= 1
  {
    if i < |shape| - 1 {
      AskedOnce(shape[..|shape| - 1], i, t);
    }
  }

  /** One packed slot: the (type, egroup) pairs it consumed, in order. */
  type Edges = seq<(nat, nat)>

  function Interval(t: nat, from: nat, to: nat): (out: Edges)
    requires from <= to
  {
    seq(to - from, k => (t, from + k))
  }

  /** What the `i`-th slot of the packing holds: for every element its `i`-th bundle. */
  ghost function SlotEdges(shape: seq<Elem>, sizes: seq<seq<nat>>, qc: seq<nat>, i: nat): Edges
    requires KnownTypes(shape, sizes, qc) && i < SlotCount(shape, sizes, qc)
  {
    if shape == [] then []
    else
      var init, last := shape[..|shape| - 1], shape[|shape| - 1];
      var s, c := sizes[last.rtype], CalcCount(last, qc[last.rtype]);
      SlotEdges(init, sizes, qc, i) + Interval(last.rtype, Cut(s, c, i), Cut(s, c, i + 1))
  }

  /** The packed slots hold what the cuts give them. */
  ghost predicate Holds(shape: seq<Elem>, sizes: seq<seq<nat>>, qc: seq<nat>, slots: seq<Edges>)
    requires KnownTypes(shape, sizes, qc)
  {
    && |slots| <= SlotCount(shape, sizes, qc)
    && forall i {:trigger HoldsAt(shape, sizes, qc, slots[i], i)} :: 0 <= i < |slots| ==> HoldsAt(shape, sizes, qc, slots[i], i)
  }

  ghost predicate HoldsAt(shape: seq<Elem>, sizes: seq<seq<nat>>, qc: seq<nat>, slot: Edges, i: nat)
    requires KnownTypes(shape, sizes, qc) && i < SlotCount(shape, sizes, qc)
  {
    slot == SlotEdges(shape, sizes, qc, i)
  }

  lemma HoldsMore(shape: seq<Elem>, sizes: seq<seq<nat>>, qc: seq<nat>, slots: seq<Edges>, more: Edges)
    requires KnownTypes(shape, sizes, qc) && Holds(shape, sizes, qc, slots) && |slots| < SlotCount(shape, sizes, qc)
    requires more == SlotEdges(shape, sizes, qc, |slots|)
    ensures Holds(shape, sizes, qc, slots + [more])
  {
    var all := slots + [more];
    forall i | 0 <= i < |all|
      ensures HoldsAt(shape, sizes, qc, all[i], i)
    {
      assert i < |slots| ==> HoldsAt(shape, sizes, qc, slots[i], i);
    }
  }

  /** The egroups found under one vertex with the iteration cursor of every type. A cursor of -1
      has just been reset; the length of the sequence is the end. */
  class DfuSlot {
    const sizes: seq<seq<nat>>
    var cursor: seq<int>

    ghost predicate Valid()
      reads this
    {
      && |cursor| == |sizes|
      && forall t :: 0 <= t < |sizes| ==> -1 <= cursor[t] <= |sizes[t]|
    }

    /** The egroup the next call of IterNext returns. */
    ghost function Pos(t: nat): (p: nat)
      requires Valid() && t < |sizes|
      reads this
      ensures p <= |sizes[t]|
    {
      if cursor[t] < |sizes[t]| then cursor[t] + 1 else |sizes[t]|
    }

    constructor (sizes: seq<seq<nat>>)
      ensures Valid() && this.sizes == sizes
      ensures forall t :: 0 <= t < |sizes| ==> Pos(t) == 0
    {
      this.sizes := sizes;
      cursor := seq(|sizes|, t => -1);
    }

    method IterReset(t: nat)
      requires Valid() && t < |sizes|
      modifies this
      ensures Valid() && cursor == old(cursor)[t := -1]
      ensures Pos(t) == 0 && forall u :: 0 <= u < |sizes| && u != t ==> Pos(u) == old(Pos(u))
    {
      cursor := cursor[t := -1];
    }

    method IterNext(t: nat) returns (g: nat)
      requires Valid() && t < |sizes|
      modifies this
      ensures Valid() && g == old(Pos(t)) && cursor == old(cursor)[t := g]
    {
      if cursor[t] < |sizes[t]| {
        cursor := cursor[t := cursor[t] + 1];
      }
      g := cursor[t];
    }

    /** Consumes whole egroups until `count` units are reached or none is left. */
    method TakeBundle(t: nat, count: nat) returns (ok: bool, edges: Edges)
      requires Valid() && t < |sizes|
      modifies this
      ensures Valid()
      ensures forall u :: 0 <= u < |sizes| && u != t ==> Pos(u) == old(Pos(u))
      ensures match BundleEnd(sizes[t], old(Pos(t)), count)
              case None => !ok
              case Some(to) => ok && Pos(t) == to && edges == Interval(t, old(Pos(t)), to)
    {
      var j := 0;
      edges := [];
      while j < count
        invariant Valid() && old(Pos(t)) <= Pos(t)
        invariant forall u :: 0 <= u < |sizes| && u != t ==> cursor[u] == old(cursor[u])
        invariant edges == Interval(t, old(Pos(t)), Pos(t))
        invariant BundleEnd(sizes[t], Pos(t), if j < count then count - j else 0) == BundleEnd(sizes[t], old(Pos(t)), count)
        decreases |sizes[t]| - Pos(t), count - j
      {
        var g := IterNext(t);
        if g == |sizes[t]| {
          return false, edges;
        }
        edges := edges + [(t, g)];
        j := j + sizes[t][g];
      }
      ok := true;
    }

    /** cnt_slot: the shares of every element's type, tallied over all its egroups. */
    method CntSlot(shape: seq<Elem>, qc: seq<nat>) returns (n: nat)
      requires Valid() && KnownTypes(shape, sizes, qc)
      requires forall t :: 0 <= t < |sizes| ==> Pos(t) == 0
      modifies this
      ensures Valid() && forall t :: 0 <= t < |sizes| ==> Pos(t) == 0
      ensures n == SlotCount(shape, sizes, qc)
    {
      n := UINT_MAX;
      for k := 0 to |shape|
        invariant Valid() && forall t :: 0 <= t < |sizes| ==> Pos(t) == 0
        invariant n == SlotCount(shape[..k], sizes, qc)
      {
        assert shape[..k + 1][..k] == shape[..k];
        var t := shape[k].rtype;
        var count := CalcCount(shape[k], qc[t]);
        var fit := 0;
        if count != 0 {
          fit := TallyAll(t, count);
        }
        n := if n > fit then fit else n;
        IterReset(t);
      }
      assert shape[..|shape|] == shape;
    }

    method TallyAll(t: nat, count: nat) returns (shares: nat)
      requires Valid() && t < |sizes| && count >= 1 && Pos(t) == 0
      modifies this
      ensures Valid()
      ensures forall u :: 0 <= u < |sizes| && u != t ==> Pos(u) == old(Pos(u))
      ensures shares == Shares(sizes[t], 0, count)
    {
      var tally := NewTally(count);
      var g := IterNext(t);
      while g != |sizes[t]|
        invariant Valid() && cursor[t] == g <= |sizes[t]|
        invariant forall u :: 0 <= u < |sizes| && u != t ==> cursor[u] == old(cursor[u])
        invariant tally.perShare == count && tally.accum < count
        invariant tally.shares + SharesLeft(sizes[t], g, tally) == Shares(sizes[t], 0, count)
        decreases |sizes[t]| - g
      {
        TallyStep(sizes[t], g, tally);
        tally := tally.Add(sizes[t][g]);
        g := IterNext(t);
      }
      shares := tally.shares;
    }

    /** Every element's type stands at its `i`-th cut, those before `k` one cut further. */
    ghost predicate AtCut(shape: seq<Elem>, qc: seq<nat>, i: nat, k: nat)
      requires Valid() && KnownTypes(shape, sizes, qc)
      reads this
    {
      forall m :: 0 <= m < |shape| ==> ElemAtCut(shape[m], qc, if m < k then i + 1 else i)
    }

    ghost predicate ElemAtCut(e: Elem, qc: seq<nat>, n: nat)
      requires Valid() && |sizes| == |qc| && e.operand >= 1 && e.rtype < |sizes|
      reads this
    {
      n <= Fit(e, sizes, qc) && Pos(e.rtype) == ElemCut(e, sizes, qc, n)
    }

    /** The innermost loop of dom_slot: the next bundle of one element. */
    method PackElem(shape: seq<Elem>, qc: seq<nat>, k: nat, ghost i: nat) returns (ok: bool, edges: Edges)
      requires Valid() && KnownTypes(shape, sizes, qc) && k < |shape|
      modifies this
      ensures Valid()
      ensures ValidShape(shape, |sizes|) && i < Fit(shape[k], sizes, qc) && old(AtCut(shape, qc, i, k)) ==>
                && ok && AtCut(shape, qc, i, k + 1)
                && edges == Interval(shape[k].rtype, ElemCut(shape[k], sizes, qc, i), ElemCut(shape[k], sizes, qc, i + 1))
    {
      if i < Fit(shape[k], sizes, qc) {
        NextCut(shape[k], sizes, qc, i);
      }
      var t := shape[k].rtype;
      ok, edges := TakeBundle(t, CalcCount(shape[k], qc[t]));
    }

    method PackOne(shape: seq<Elem>, qc: seq<nat>, ghost i: nat) returns (ok: bool, edges: Edges)
      requires Valid() && KnownTypes(shape, sizes, qc)
      modifies this
      ensures Valid()
      ensures ValidShape(shape, |sizes|) && i < SlotCount(shape, sizes, qc) && old(AtCut(shape, qc, i, 0)) ==>
                ok && edges == SlotEdges(shape, sizes, qc, i) && AtCut(shape, qc, i + 1, 0)
    {
      ghost var fits := ValidShape(shape, |sizes|) && i < SlotCount(shape, sizes, qc) && AtCut(shape, qc, i, 0);
      ok, edges := true, [];
      for k := 0 to |shape|
        invariant Valid()
        invariant fits ==> ok && AtCut(shape, qc, i, k)
        invariant fits ==> i < SlotCount(shape[..k], sizes, qc) && edges == SlotEdges(shape[..k], sizes, qc, i)
      {
        if fits {
          EdgesStep(shape, sizes, qc, i, k);
        }
        var more;
        ok, more := PackElem(shape, qc, k, i);
        if !ok {
          return;
        }
        edges := edges + more;
      }
      assert shape[..|shape|] == shape;
    }

    /** The packing loop of dom_slot. */
    method Pack(shape: seq<Elem>, qc: seq<nat>, slots: nat) returns (packed: Option<seq<Edges>>)
      requires Valid() && KnownTypes(shape, sizes, qc)
      requires forall t :: 0 <= t < |sizes| ==> Pos(t) == 0
      modifies this
      ensures Valid()
      ensures Explored(shape, sizes, qc) && slots <= SlotCount(shape, sizes, qc) ==>
                packed.Some? && |packed.value| == slots && Holds(shape, sizes, qc, packed.value)
    {
      ghost var fits := Explored(shape, sizes, qc) && 0 < slots <= SlotCount(shape, sizes, qc);
      if fits {
        RepeatedTypesGetNothing(shape, sizes, qc);
      }
      var out: seq<Edges> := [];
      for i := 0 to slots
        invariant Valid() && |out| == i
        invariant fits ==> AtCut(shape, qc, i, 0) && Holds(shape, sizes, qc, out)
      {
        var ok, edges := PackOne(shape, qc, i);
        if !ok {
          return None;
        }
        if fits {
          HoldsMore(shape, sizes, qc, out, edges);
        }
        out := out + [edges];
      }
      return Some(out);
    }
  }

  /** Where an element's type stands after `i` slots. */
  ghost function ElemCut(e: Elem, sizes: seq<seq<nat>>, qc: seq<nat>, i: nat): (at: nat)
    requires |sizes| == |qc| && e.operand >= 1 && e.rtype < |sizes|
    requires i <= Fit(e, sizes, qc)
    ensures at <= |sizes[e.rtype]|
  {
    if i == 0 then 0 else Cut(sizes[e.rtype], CalcCount(e, qc[e.rtype]), i)
  }

  // ----- The share tally

  /** share_tally_t */
  datatype Tally = Tally(perShare: nat, prevTotal: nat, accum: nat, shares: nat) {

    predicate Satisfies(multiplier: nat) {
      perShare == 0 || shares >= multiplier
    }

    /** A completed share starts the next one from zero: no remainder is carried. */
    function Add(count: nat): Tally {
      if perShare > 0 && accum + count >= perShare then this.(shares := shares + 1, accum := 0)
      else this.(accum := accum + count)
    }
  }

  function NewTally(perShare: nat): Tally {
    Tally(perShare, 0, 0, 0)
  }

  /** The shares still to come when the egroups from `from` on are added to `tally`. */
  function SharesLeft(sizes: seq<nat>, from: nat, tally: Tally): nat
    requires from <= |sizes| && tally.accum < tally.perShare
  {
    match BundleEnd(sizes, from, tally.perShare - tally.accum)
    case None => 0
    case Some(to) => 1 + Shares(sizes, to, tally.perShare)
  }

  lemma TallyStep(sizes: seq<nat>, from: nat, tally: Tally)
    requires from < |sizes| && tally.accum < tally.perShare
    ensures var after := tally.Add(sizes[from]);
            && after.accum < after.perShare == tally.perShare
            && after.shares + SharesLeft(sizes, from + 1, after) == tally.shares + SharesLeft(sizes, from, tally)
  {
    if tally.perShare - tally.accum <= sizes[from] {
      assert BundleEnd(sizes, from, tally.perShare - tally.accum) == Some(from + 1);
    }
  }

  lemma {:induction false} SlotCountIsLeast(shape: seq<Elem>, sizes: seq<seq<nat>>, qc: seq<nat>, k: nat)
    requires KnownTypes(shape, sizes, qc) && k < |shape|
    ensures SlotCount(shape, sizes, qc) <= Fit(shape[k], sizes, qc)
  {
    if k < |shape| - 1 {
      SlotCountIsLeast(shape[..|shape| - 1], sizes, qc, k);
    }
  }

  lemma {:induction false} SlotCountPrefix(shape: seq<Elem>, sizes: seq<seq<nat>>, qc: seq<nat>, k: nat)
    requires KnownTypes(shape, sizes, qc) && k <= |shape|
    ensures SlotCount(shape, sizes, qc) <= SlotCount(shape[..k], sizes, qc)
  {
    if k == |shape| {
      assert shape[..k] == shape;
    } else {
      SlotCountPrefix(shape[..|shape| - 1], sizes, qc, k);
      assert shape[..|shape| - 1][..k] == shape[..k];
    }
  }

  lemma NextCut(e: Elem, sizes: seq<seq<nat>>, qc: seq<nat>, i: nat)
    requires |sizes| == |qc| && e.operand >= 1 && e.rtype < |sizes|
    requires i < Fit(e, sizes, qc)
    ensures BundleEnd(sizes[e.rtype], ElemCut(e, sizes, qc, i), CalcCount(e, qc[e.rtype]))
            == Some(ElemCut(e, sizes, qc, i + 1))
  {
    var s, c := sizes[e.rtype], CalcCount(e, qc[e.rtype]);
    assert Shares(s, Cut(s, c, i), c) > 0;
  }

  lemma EdgesStep(shape: seq<Elem>, sizes: seq<seq<nat>>, qc: seq<nat>, i: nat, k: nat)
    requires KnownTypes(shape, sizes, qc) && k < |shape| && i < SlotCount(shape, sizes, qc)
    ensures i < SlotCount(shape[..k], sizes, qc) && i < SlotCount(shape[..k + 1], sizes, qc)
    ensures i < Fit(shape[k], sizes, qc)
    ensures SlotEdges(shape[..k + 1], sizes, qc, i)
            == SlotEdges(shape[..k], sizes, qc, i)
               + Interval(shape[k].rtype, ElemCut(shape[k], sizes, qc, i), ElemCut(shape[k], sizes, qc, i + 1))
  {
    assert shape[..k + 1][..k] == shape[..k];
    SlotCountPrefix(shape, sizes, qc, k + 1);
  }

  /** A shape that asks for nothing finds nothing, and one that gets a slot has found something. */
  lemma FoundForSlots(shape: seq<Elem>, sizes: seq<seq<nat>>, qc: seq<nat>)
    requires KnownTypes(shape, sizes, qc) && Explored(shape, sizes, qc)
    ensures SlotCount(shape, sizes, qc) > 0 ==> (Barren(sizes) <==> shape == [])
  {
    if shape == [] {
      assert forall t: nat :: Asked(shape, t) == 0;
    } else {
      SlotCountIsLeast(shape, sizes, qc, 0);
    }
  }

  /** dom_slot on the egroups found for a slot shape: no slots is a failed match. */
  method DomSlot(shape: seq<Elem>, sizes: seq<seq<nat>>, qc: seq<nat>) returns (slots: Option<seq<Edges>>)
    requires KnownTypes(shape, sizes, qc) && Explored(shape, sizes, qc)
    ensures slots.Some? <==> shape != [] && SlotCount(shape, sizes, qc) > 0
    ensures slots.Some? ==> ValidShape(shape, |sizes|)
    ensures slots.Some? ==>
              |slots.value| == SlotCount(shape, sizes, qc) && Holds(shape, sizes, qc, slots.value)
  {
    FoundForSlots(shape, sizes, qc);
    if Barren(sizes) {
      return None;
    }
    var dfu := new DfuSlot(sizes);
    var n := dfu.CntSlot(shape, qc);
    slots := dfu.Pack(shape, qc, n);
    if n == 0 {
      slots := None;
    } else {
      RepeatedTypesGetNothing(shape, sizes, qc);
    }
  }

  /** The bundles of one element are consecutive, so slots share no egroup, and each reaches the
      element's count with its last egroup only. */
  lemma PackedBundle(e: Elem, sizes: seq<seq<nat>>, qc: seq<nat>, i: nat)
    requires |sizes| == |qc| && e.operand >= 1 && e.rtype < |sizes|
    requires i < Fit(e, sizes, qc)
    ensures var s, c := sizes[e.rtype], CalcCount(e, qc[e.rtype]);
            var from, to := ElemCut(e, sizes, qc, i), ElemCut(e, sizes, qc, i + 1);
            from < to && SumRange(s, from, to - 1) < c <= SumRange(s, from, to)
  {
    var s, c := sizes[e.rtype], CalcCount(e, qc[e.rtype]);
    var from, to := ElemCut(e, sizes, qc, i), ElemCut(e, sizes, qc, i + 1);
    NextCut(e, sizes, qc, i);
    BundleEndIsLeast(s, from, c, to);
    BundleEndIsLeast(s, from, c, to - 1);
  }

  /** No packing beats the count: if every element's egroups can be cut into `n` consecutive
      bundles reaching its count, then at least `n` slots are counted. */
  lemma {:induction false} SlotCountIsGreatest(shape: seq<Elem>, sizes: seq<seq<nat>>, qc: seq<nat>, n: nat)
    requires KnownTypes(shape, sizes, qc) && n <= UINT_MAX
    requires forall k :: 0 <= k < |shape| ==> CanCut(shape[k], sizes, qc, n)
    ensures n <= SlotCount(shape, sizes, qc)
  {
    if shape != [] {
      var last := shape[|shape| - 1];
      SlotCountIsGreatest(shape[..|shape| - 1], sizes, qc, n);
      assert CanCut(last, sizes, qc, n);
      var c := CalcCount(last, qc[last.rtype]);
      if c > 0 {
        var at :| IsCut(sizes[last.rtype], c, at) && |at| - 1 == n;
        GreedyStaysAhead(sizes[last.rtype], c, 0, at);
      }
    }
  }

  ghost predicate CanCut(e: Elem, sizes: seq<seq<nat>>, qc: seq<nat>, n: nat)
    requires |sizes| == |qc| && e.operand >= 1 && e.rtype < |sizes|
  {
    var c := CalcCount(e, qc[e.rtype]);
    if c == 0 then n == 0
    else exists at :: IsCut(sizes[e.rtype], c, at) && |at| - 1 == n
  }
}
