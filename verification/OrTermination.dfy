/** When the search for the best mix of or_slots ends. The search reads its signed counts as unsigned
    (select_or_config in resource/traversers/dfu_flexible.cpp), so a slot that takes more of a type than
    there is leaves a negative count that reads as a large one. */
module OrTermination {
  import opened Common
  import opened Jobspec
  import opened OrConfig

  const INT_MAX: int := 0x7fff_ffff

  type Int32 = x: int | -0x8000_0000 <= x <= 0x7fff_ffff
  type UInt32 = x: int | 0 <= x <= 0xffff_ffff

  /** The conversion of an int to an unsigned int. */
  function Unsigned(x: Int32): UInt32 {
    if x < 0 then x + 0x1_0000_0000 else x
  }

  /** An unsigned int subtracted from an int, as unsigned, and stored in an int. */
  function Minus(x: Int32, q: UInt32): (r: Int32)
    ensures Unsigned(r) == if q <= Unsigned(x) then Unsigned(x) - q else Unsigned(x) - q + 0x1_0000_0000
    ensures x - q >= -0x8000_0000 ==> r == x - q
  {
    var d := Unsigned(x) - q;
    var u := if d < 0 then d + 0x1_0000_0000 else d;
    if u <= INT_MAX then u else u - 0x1_0000_0000
  }

  type IntCounts = seq<Int32>

  datatype IntRow = IntRow(next: IntCounts, score: nat, index: int)

  type Rows = map<IntCounts, IntRow>

  ghost predicate KnownSlots(slots: seq<OrSlot>, types: nat) {
    forall i :: 0 <= i < |slots| ==> KnownShape(slots[i].with, types)
  }

  /** The counts after granting one slot: each element asks for its part of the original count, and the parts are
      subtracted one by one. */
  function TakeInt(with: seq<Elem>, counts: IntCounts): (left: Option<IntCounts>)
    requires KnownShape(with, |counts|)
    ensures left.Some? ==> |left.value| == |counts|
  {
    if with == [] then Some(counts)
    else
      var l := |with| - 1;
      var t := with[l].rtype;
      match TakeInt(with[..l], counts)
      case None => None
      case Some(c) =>
        var q := CalcCount(with[l], Unsigned(counts[t]));
        if q == 0 then None else Some(c[t := Minus(c[t], q)])
  }

  /** select_or_config with two or more alternatives, giving up after `fuel` nested calls: the table afterwards. */
  function Search(slots: seq<OrSlot>, counts: IntCounts, rows: Rows, fuel: nat): (r: Option<Rows>)
    requires KnownSlots(slots, |counts|) && |slots| != 1
    ensures r.Some? ==> counts in r.value && rows.Keys <= r.value.Keys
    decreases fuel, 1, 0
  {
    if counts in rows then Some(rows)
    else if fuel == 0 then None
    else Loop(slots, counts, rows, 0, -1, fuel)
  }

  function Loop(slots: seq<OrSlot>, counts: IntCounts, rows: Rows, i: nat, best: int, fuel: nat): (r: Option<Rows>)
    requires KnownSlots(slots, |counts|) && |slots| != 1 && i <= |slots| && fuel >= 1
    requires best >= -1 && (best >= 0 ==> counts in rows)
    ensures r.Some? ==> counts in r.value && rows.Keys <= r.value.Keys
    decreases fuel, 0, |slots| - i
  {
    if i == |slots| then Some(if best < 0 then rows[counts := IntRow([], 0, -1)] else rows)
    else
      match TakeInt(slots[i].with, counts)
      case None => Loop(slots, counts, rows, i + 1, best, fuel)
      case Some(left) =>
        match Search(slots, left, rows, fuel - 1)
        case None => None
        case Some(found) =>
          var test := found[left].score;
          Loop(slots, counts, Keep(counts, found, left, best, i), i + 1, if best < test then test else best, fuel)
  }

  /** The table after alternative `i` scored: its row is stored if it is the best so far. */
  function Keep(counts: IntCounts, found: Rows, left: IntCounts, best: int, i: nat): (rows: Rows)
    requires left in found
    ensures found.Keys <= rows.Keys && (best < found[left].score ==> counts in rows)
  {
    var test := found[left].score;
    if best < test then found[counts := IntRow(left, test + 1, i)] else found
  }

  /** The call that dom_slot makes, on an empty table, returns. */
  ghost predicate Returns(slots: seq<OrSlot>, counts: IntCounts)
    requires KnownSlots(slots, |counts|) && |slots| != 1
  {
    exists fuel: nat :: Search(slots, counts, map[], fuel).Some?
  }

  // ----- Exactly when it returns

  ghost predicate Sized(slots: seq<OrSlot>, types: nat, c: IntCounts) {
    KnownSlots(slots, types) && |slots| != 1 && |c| == types
  }

  /** What is left after the first alternative, from the i-th on, that can be granted. */
  ghost function FirstGrant(slots: seq<OrSlot>, c: IntCounts, i: nat): (left: Option<IntCounts>)
    requires KnownSlots(slots, |c|) && i <= |slots|
    ensures left.Some? ==> |left.value| == |c|
    decreases |slots| - i
  {
    if i == |slots| then None
    else if TakeInt(slots[i].with, c).Some? then TakeInt(slots[i].with, c)
    else FirstGrant(slots, c, i + 1)
  }

  /** Always granting the first alternative that can be granted comes to an end within `n` steps. */
  ghost predicate EndsWithin(slots: seq<OrSlot>, c: IntCounts, n: nat)
    requires KnownSlots(slots, |c|)
    decreases n
  {
    n > 0 && (FirstGrant(slots, c, 0).None? || EndsWithin(slots, FirstGrant(slots, c, 0).value, n - 1))
  }

  ghost predicate Ends(slots: seq<OrSlot>, types: nat, c: IntCounts) {
    Sized(slots, types, c) && exists n: nat :: EndsWithin(slots, c, n)
  }

  /** `d` is left after granting some alternative. */
  ghost predicate Grants(slots: seq<OrSlot>, types: nat, c: IntCounts, d: IntCounts) {
    Sized(slots, types, c) && exists i: nat :: i < |slots| && TakeInt(slots[i].with, c) == Some(d)
  }

  ghost predicate IsRun(slots: seq<OrSlot>, types: nat, p: seq<IntCounts>) {
    p != [] && forall k :: 0 <= k < |p| - 1 ==> Grants(slots, types, p[k], p[k + 1])
  }

  /** `d` is left after granting any alternatives in any order. */
  ghost predicate CanLeave(slots: seq<OrSlot>, types: nat, c: IntCounts, d: IntCounts) {
    exists p :: IsRun(slots, types, p) && p[0] == c && p[|p| - 1] == d
  }

  lemma EndsStep(slots: seq<OrSlot>, types: nat, c: IntCounts)
    requires Sized(slots, types, c)
    ensures Ends(slots, types, c) <==>
              FirstGrant(slots, c, 0).None? || Ends(slots, types, FirstGrant(slots, c, 0).value)
  {
    var first := FirstGrant(slots, c, 0);
    if first.None? {
      assert EndsWithin(slots, c, 1);
    } else {
      if n: nat :| EndsWithin(slots, first.value, n) {
        assert EndsWithin(slots, c, n + 1);
      }
      if n: nat :| EndsWithin(slots, c, n) {
        assert EndsWithin(slots, first.value, n - 1);
      }
    }
  }

  /** None of the first `i` alternatives can be granted. */
  ghost predicate NoGrant(slots: seq<OrSlot>, c: IntCounts, i: nat)
    requires KnownSlots(slots, |c|) && i <= |slots|
  {
    FirstGrant(slots, c, 0) == FirstGrant(slots, c, i)
  }

  // A search that returns: all that it visited can be granted no further, or leads to what it visited.

  ghost predicate AllEnd(slots: seq<OrSlot>, types: nat, K: set<IntCounts>) {
    forall k {:trigger Ends(slots, types, k)} :: k in K ==> Ends(slots, types, k)
  }

  /** What the first `n` alternatives leave of `c` is in `K`. */
  ghost predicate TriedTo(slots: seq<OrSlot>, types: nat, c: IntCounts, n: nat, K: set<IntCounts>) {
    Sized(slots, types, c) && n <= |slots| &&
    forall i :: 0 <= i < n && TakeInt(slots[i].with, c).Some? ==> TakeInt(slots[i].with, c).value in K
  }

  ghost predicate ClosedAt(slots: seq<OrSlot>, types: nat, c: IntCounts, K: set<IntCounts>) {
    TriedTo(slots, types, c, |slots|, K)
  }

  /** Whatever is in `B` and not in `A` leads into `B` only. */
  ghost predicate NewClosed(slots: seq<OrSlot>, types: nat, A: set<IntCounts>, B: set<IntCounts>) {
    forall k {:trigger ClosedAt(slots, types, k, B)} :: k in B && k !in A ==> ClosedAt(slots, types, k, B)
  }

  lemma {:induction false} SearchCloses(slots: seq<OrSlot>, types: nat, c: IntCounts, rows: Rows, fuel: nat)
    requires Sized(slots, types, c) && AllEnd(slots, types, rows.Keys) && Search(slots, c, rows, fuel).Some?
    ensures var K := Search(slots, c, rows, fuel).value.Keys;
            AllEnd(slots, types, K) && NewClosed(slots, types, rows.Keys, K)
    decreases fuel, 1, 0
  {
    if c !in rows {
      LoopCloses(slots, types, c, rows, 0, -1, fuel);
      assert rows.Keys - {c} == rows.Keys;
    }
  }

  lemma {:induction false} LoopCloses(slots: seq<OrSlot>, types: nat, c: IntCounts, rows: Rows, i: nat, best: int,
                                      fuel: nat)
    requires Sized(slots, types, c) && AllEnd(slots, types, rows.Keys) && i <= |slots| && fuel >= 1
    requires TriedTo(slots, types, c, i, rows.Keys)
    requires best >= -1 && if best < 0 then NoGrant(slots, c, i) else c in rows
    requires Loop(slots, c, rows, i, best, fuel).Some?
    ensures var K := Loop(slots, c, rows, i, best, fuel).value.Keys;
            AllEnd(slots, types, K) && NewClosed(slots, types, rows.Keys - {c}, K)
    decreases fuel, 0, |slots| - i
  {
    if i == |slots| {
      LastCloses(slots, types, c, rows, best);
    } else {
      match TakeInt(slots[i].with, c)
      case None => LoopCloses(slots, types, c, rows, i + 1, best, fuel);
      case Some(left) =>
        SearchCloses(slots, types, left, rows, fuel - 1);
        var found := Search(slots, left, rows, fuel - 1).value;
        var kept, test := Keep(c, found, left, best, i), found[left].score;
        KeepCloses(slots, types, c, rows, found, left, best, i);
        LoopCloses(slots, types, c, kept, i + 1, if best < test then test else best, fuel);
        ClosesBoth(slots, types, c, rows.Keys, found.Keys, kept.Keys,
                   Loop(slots, c, kept, i + 1, if best < test then test else best, fuel).value.Keys);
    }
  }

  lemma LastCloses(slots: seq<OrSlot>, types: nat, c: IntCounts, rows: Rows, best: int)
    requires AllEnd(slots, types, rows.Keys) && TriedTo(slots, types, c, |slots|, rows.Keys)
    requires if best < 0 then NoGrant(slots, c, |slots|) else c in rows
    ensures var K := (if best < 0 then rows[c := IntRow([], 0, -1)] else rows).Keys;
            AllEnd(slots, types, K) && NewClosed(slots, types, rows.Keys - {c}, K)
  {
    var K := (if best < 0 then rows[c := IntRow([], 0, -1)] else rows).Keys;
    assert K == rows.Keys + {c};
    EndsStep(slots, types, c);
    assert ClosedAt(slots, types, c, K);
  }

  lemma KeepCloses(slots: seq<OrSlot>, types: nat, c: IntCounts, rows: Rows, found: Rows, left: IntCounts, best: int,
                   i: nat)
    requires TriedTo(slots, types, c, i, rows.Keys) && i < |slots| && TakeInt(slots[i].with, c) == Some(left)
    requires if best < 0 then NoGrant(slots, c, i) else c in rows
    requires rows.Keys <= found.Keys && left in found && AllEnd(slots, types, found.Keys)
    ensures var kept := Keep(c, found, left, best, i);
            && AllEnd(slots, types, kept.Keys) && TriedTo(slots, types, c, i + 1, kept.Keys)
            && kept.Keys == found.Keys + {c}
  {
    assert Ends(slots, types, left);
    EndsStep(slots, types, c);
    assert c in rows ==> Ends(slots, types, c);
  }

  lemma ClosesBoth(slots: seq<OrSlot>, types: nat, c: IntCounts, A: set<IntCounts>, B: set<IntCounts>,
                   C: set<IntCounts>, K: set<IntCounts>)
    requires A <= B && C == B + {c} && C <= K
    requires NewClosed(slots, types, A, B) && NewClosed(slots, types, C - {c}, K)
    ensures NewClosed(slots, types, A - {c}, K)
  {
    forall k | k in K && k !in A - {c}
      ensures ClosedAt(slots, types, k, K)
    {
      if k in C - {c} {
        assert ClosedAt(slots, types, k, B);
      }
    }
  }

  lemma {:induction false} RunStays(slots: seq<OrSlot>, types: nat, p: seq<IntCounts>, K: set<IntCounts>)
    requires IsRun(slots, types, p) && p[0] in K && NewClosed(slots, types, {}, K)
    ensures p[|p| - 1] in K
    decreases |p|
  {
    if |p| > 1 {
      assert Grants(slots, types, p[0], p[1]);
      assert ClosedAt(slots, types, p[0], K);
      RunStays(slots, types, p[1..], K);
    }
  }

  // Counts that lead only to counts whose first grants end: the search returns.

  lemma {:induction false} SearchMore(slots: seq<OrSlot>, types: nat, c: IntCounts, rows: Rows, fuel: nat, more: nat)
    requires Sized(slots, types, c) && fuel <= more && Search(slots, c, rows, fuel).Some?
    ensures Search(slots, c, rows, more) == Search(slots, c, rows, fuel)
    decreases fuel, 1, 0
  {
    if c !in rows {
      LoopMore(slots, types, c, rows, 0, -1, fuel, more);
    }
  }

  lemma {:induction false} LoopMore(slots: seq<OrSlot>, types: nat, c: IntCounts, rows: Rows, i: nat, best: int,
                                    fuel: nat, more: nat)
    requires Sized(slots, types, c) && i <= |slots| && 1 <= fuel <= more
    requires best >= -1 && (best >= 0 ==> c in rows) && Loop(slots, c, rows, i, best, fuel).Some?
    ensures Loop(slots, c, rows, i, best, more) == Loop(slots, c, rows, i, best, fuel)
    decreases fuel, 0, |slots| - i
  {
    if i < |slots| {
      match TakeInt(slots[i].with, c)
      case None => LoopMore(slots, types, c, rows, i + 1, best, fuel, more);
      case Some(left) =>
        SearchMore(slots, types, left, rows, fuel - 1, more - 1);
        var found := Search(slots, left, rows, fuel - 1).value;
        var test := found[left].score;
        LoopMore(slots, types, c, Keep(c, found, left, best, i), i + 1, if best < test then test else best, fuel, more);
    }
  }

  /** Everything in `D` leads into `D`, and its first grants end. */
  ghost predicate Tame(slots: seq<OrSlot>, types: nat, D: set<IntCounts>) {
    AllEnd(slots, types, D) && NewClosed(slots, types, {}, D)
  }

  lemma {:induction false} SearchReturns(slots: seq<OrSlot>, types: nat, c: IntCounts, rows: Rows, D: set<IntCounts>,
                                         n: nat)
    returns (fuel: nat)
    requires Sized(slots, types, c) && Tame(slots, types, D) && c in D && EndsWithin(slots, c, n)
    ensures Search(slots, c, rows, fuel).Some?
    decreases |D - rows.Keys|, n, 1, 0
  {
    if c in rows {
      fuel := 0;
    } else {
      fuel := LoopEnds(slots, types, c, rows, 0, -1, D, n, |D - rows.Keys|);
    }
  }

  lemma {:induction false} LoopEnds(slots: seq<OrSlot>, types: nat, c: IntCounts, rows: Rows, i: nat, best: int,
                                    D: set<IntCounts>, n: nat, bound: nat)
    returns (fuel: nat)
    requires Sized(slots, types, c) && Tame(slots, types, D) && c in D && EndsWithin(slots, c, n) && i <= |slots|
    requires best >= -1
    requires if best < 0 then NoGrant(slots, c, i) && c !in rows && |D - rows.Keys| == bound
             else c in rows && |D - rows.Keys| < bound
    ensures fuel >= 1 && Loop(slots, c, rows, i, best, fuel).Some?
    decreases bound, n, 0, |slots| - i
  {
    if i == |slots| {
      fuel := 1;
    } else {
      match TakeInt(slots[i].with, c)
      case None => fuel := LoopEnds(slots, types, c, rows, i + 1, best, D, n, bound);
      case Some(left) =>
        assert ClosedAt(slots, types, c, D) && Ends(slots, types, left);
        var m: nat := n - 1;
        if best >= 0 {
          m :| EndsWithin(slots, left, m);
        }
        var f := SearchReturns(slots, types, left, rows, D, m);
        var found := Search(slots, left, rows, f).value;
        var kept, better := Keep(c, found, left, best, i), if best < found[left].score then found[left].score else best;
        FewerLeft(D, c, rows, kept);
        var g := LoopEnds(slots, types, c, kept, i + 1, better, D, n, bound);
        fuel := if f + 1 >= g then f + 1 else g;
        LoopJoins(slots, types, c, rows, i, best, left, found, f, g, fuel);
    }
  }

  /** Fuel that is enough for one alternative and for the rest of the loop. */
  lemma LoopJoins(slots: seq<OrSlot>, types: nat, c: IntCounts, rows: Rows, i: nat, best: int, left: IntCounts,
                  found: Rows, f: nat, g: nat, fuel: nat)
    requires Sized(slots, types, c) && i < |slots| && TakeInt(slots[i].with, c) == Some(left)
    requires best >= -1 && (best >= 0 ==> c in rows) && f + 1 <= fuel && 1 <= g <= fuel
    requires Search(slots, left, rows, f) == Some(found)
    requires Loop(slots, c, Keep(c, found, left, best, i), i + 1,
                  if best < found[left].score then found[left].score else best, g).Some?
    ensures Loop(slots, c, rows, i, best, fuel).Some?
  {
    SearchMore(slots, types, left, rows, f, fuel - 1);
    LoopMore(slots, types, c, Keep(c, found, left, best, i), i + 1,
             if best < found[left].score then found[left].score else best, g, fuel);
  }

  lemma FewerLeft(D: set<IntCounts>, c: IntCounts, rows: Rows, kept: Rows)
    requires rows.Keys <= kept.Keys && c in kept && c in D
    ensures |D - kept.Keys| <= |D - rows.Keys| && (c !in rows ==> |D - kept.Keys| < |D - rows.Keys|)
  {
    var a, b := D - kept.Keys, D - rows.Keys;
    SubsetSize(a, b);
    if c !in rows {
      SubsetSize(a, b - {c});
    }
  }

  lemma {:induction false} SubsetSize(a: set<IntCounts>, b: set<IntCounts>)
    requires a <= b
    ensures |a| <= |b|
  {
    if a != {} {
      var x :| x in a;
      SubsetSize(a - {x}, b - {x});
    }
  }

  // There are finitely many counts.

  ghost function AllCounts(types: nat): set<IntCounts> {
    if types == 0 then {[]}
    else
      var rest, all := AllCounts(types - 1), set x: Int32 {:trigger Unsigned(x)} | -0x8000_0000 <= x <= 0x7fff_ffff;
      set x, c | x in all && c in rest :: [x] + c
  }

  lemma {:induction false} CountsAreAll(c: IntCounts)
    ensures c in AllCounts(|c|)
  {
    if c != [] {
      CountsAreAll(c[1..]);
      assert c == [c[0]] + c[1..] && Unsigned(c[0]) >= 0;
    }
  }

  ghost function Leavable(slots: seq<OrSlot>, types: nat, c: IntCounts): set<IntCounts> {
    set d | d in AllCounts(types) && CanLeave(slots, types, c, d)
  }

  lemma LeavesSelf(slots: seq<OrSlot>, types: nat, c: IntCounts)
    ensures CanLeave(slots, types, c, c)
  {
    assert IsRun(slots, types, [c]);
  }

  lemma LeavesMore(slots: seq<OrSlot>, types: nat, c: IntCounts, d: IntCounts, e: IntCounts)
    requires CanLeave(slots, types, c, d) && Grants(slots, types, d, e)
    ensures CanLeave(slots, types, c, e)
  {
    var p :| IsRun(slots, types, p) && p[0] == c && p[|p| - 1] == d;
    var q := p + [e];
    assert IsRun(slots, types, q) && q[0] == c && q[|q| - 1] == e;
  }

  lemma LeavableIsTame(slots: seq<OrSlot>, types: nat, c: IntCounts)
    requires Sized(slots, types, c) && forall d :: CanLeave(slots, types, c, d) ==> Ends(slots, types, d)
    ensures Tame(slots, types, Leavable(slots, types, c)) && c in Leavable(slots, types, c)
  {
    var D := Leavable(slots, types, c);
    LeavesSelf(slots, types, c);
    CountsAreAll(c);
    forall k | k in D
      ensures ClosedAt(slots, types, k, D)
    {
      assert Ends(slots, types, k);
      forall i | 0 <= i < |slots| && TakeInt(slots[i].with, k).Some?
        ensures TakeInt(slots[i].with, k).value in D
      {
        var e := TakeInt(slots[i].with, k).value;
        assert Grants(slots, types, k, e);
        LeavesMore(slots, types, c, k, e);
        CountsAreAll(e);
      }
    }
  }

  /** For all alternatives and counts: the search returns if and only if, from all counts that granting can leave,
      always granting the first alternative that can be granted comes to an end. */
  lemma ReturnsExactly(slots: seq<OrSlot>, types: nat, c: IntCounts)
    requires Sized(slots, types, c)
    ensures Returns(slots, c) <==> forall d :: CanLeave(slots, types, c, d) ==> Ends(slots, types, d)
  {
    if Returns(slots, c) {
      var fuel: nat :| Search(slots, c, map[], fuel).Some?;
      SearchCloses(slots, types, c, map[], fuel);
      var K := Search(slots, c, map[], fuel).value.Keys;
      forall d | CanLeave(slots, types, c, d)
        ensures Ends(slots, types, d)
      {
        var p :| IsRun(slots, types, p) && p[0] == c && p[|p| - 1] == d;
        RunStays(slots, types, p, K);
      }
    }
    if forall d :: CanLeave(slots, types, c, d) ==> Ends(slots, types, d) {
      LeavableIsTame(slots, types, c);
      var D := Leavable(slots, types, c);
      assert Ends(slots, types, c);
      var n: nat :| EndsWithin(slots, c, n);
      var fuel := SearchReturns(slots, types, c, map[], D, n);
    }
  }

  // ----- Chains that go on for ever, and runs that go down

  /** `i` is the first alternative that can be granted. */
  ghost predicate FirstTaken(slots: seq<OrSlot>, c: IntCounts, i: nat)
    requires KnownSlots(slots, |c|)
  {
    && i < |slots| && TakeInt(slots[i].with, c).Some?
    && forall k :: 0 <= k < i ==> TakeInt(slots[k].with, c).None?
  }

  /** From counts in `P` the first alternative that can be granted leads to counts in `P`. */
  ghost predicate GoesOn(slots: seq<OrSlot>, c: IntCounts, P: IntCounts -> bool)
    requires KnownSlots(slots, |c|)
  {
    exists i: nat :: FirstTaken(slots, c, i) && P(TakeInt(slots[i].with, c).value)
  }

  ghost predicate Endless(slots: seq<OrSlot>, types: nat, P: IntCounts -> bool)
    requires KnownSlots(slots, types)
  {
    forall c {:trigger GoesOn(slots, c, P)} :: P(c) ==> |c| == types && GoesOn(slots, c, P)
  }

  lemma {:induction false} NeverReturns(slots: seq<OrSlot>, c: IntCounts, rows: Rows, fuel: nat, P: IntCounts -> bool)
    requires KnownSlots(slots, |c|) && |slots| != 1 && Endless(slots, |c|, P) && P(c)
    requires forall k <- rows :: !P(k)
    ensures Search(slots, c, rows, fuel) == None
    decreases fuel, 1
  {
    if fuel > 0 {
      assert GoesOn(slots, c, P);
      var i: nat :| FirstTaken(slots, c, i) && P(TakeInt(slots[i].with, c).value);
      LoopNeverReturns(slots, c, rows, 0, i, fuel, P);
    }
  }

  lemma {:induction false} LoopNeverReturns(slots: seq<OrSlot>, c: IntCounts, rows: Rows, k: nat, i: nat, fuel: nat,
                                            P: IntCounts -> bool)
    requires KnownSlots(slots, |c|) && |slots| != 1 && Endless(slots, |c|, P) && fuel >= 1
    requires FirstTaken(slots, c, i) && P(TakeInt(slots[i].with, c).value) && k <= i
    requires forall k <- rows :: !P(k)
    ensures Loop(slots, c, rows, k, -1, fuel) == None
    decreases fuel, 0, i - k
  {
    if k < i {
      LoopNeverReturns(slots, c, rows, k + 1, i, fuel, P);
    } else {
      NeverReturns(slots, TakeInt(slots[i].with, c).value, rows, fuel - 1, P);
    }
  }

  lemma {:induction false} FirstTakenIs(slots: seq<OrSlot>, c: IntCounts, k: nat, i: nat)
    requires KnownSlots(slots, |c|) && FirstTaken(slots, c, i) && k <= i
    ensures FirstGrant(slots, c, k) == TakeInt(slots[i].with, c)
    decreases i - k
  {
    if k < i {
      FirstTakenIs(slots, c, k + 1, i);
    }
  }

  /** A chain of first grants that stays among counts of one kind does not end. */
  lemma {:induction false} EndlessChain(slots: seq<OrSlot>, c: IntCounts, P: IntCounts -> bool, n: nat)
    requires KnownSlots(slots, |c|) && Endless(slots, |c|, P) && P(c)
    ensures !EndsWithin(slots, c, n)
    decreases n
  {
    if n > 0 {
      assert GoesOn(slots, c, P);
      var i: nat :| FirstTaken(slots, c, i) && P(TakeInt(slots[i].with, c).value);
      FirstTakenIs(slots, c, 0, i);
      EndlessChain(slots, FirstGrant(slots, c, 0).value, P, n - 1);
    }
  }

  lemma EndlessDoesNotReturn(slots: seq<OrSlot>, types: nat, c: IntCounts, P: IntCounts -> bool)
    requires Sized(slots, types, c) && Endless(slots, types, P) && P(c)
    ensures !Returns(slots, c)
  {
    forall n: nat
      ensures !EndsWithin(slots, c, n)
    {
      EndlessChain(slots, c, P, n);
    }
    LeavesSelf(slots, types, c);
    ReturnsExactly(slots, types, c);
  }

  /** Among two or more alternatives one that asks for nothing is granted again and again. */
  lemma EmptySlotNeverReturns(slots: seq<OrSlot>, counts: IntCounts, j: nat)
    requires KnownSlots(slots, |counts|) && |slots| >= 2 && j < |slots| && slots[j].with == []
    ensures !Returns(slots, counts)
  {
    var P := (c: IntCounts) => |c| == |counts|;
    forall c | P(c)
      ensures GoesOn(slots, c, P)
    {
      var i := TakenByThen(slots, c, j);
    }
    EndlessDoesNotReturn(slots, |counts|, counts, P);
  }

  lemma {:induction false} TakenByThen(slots: seq<OrSlot>, c: IntCounts, j: nat) returns (i: nat)
    requires KnownSlots(slots, |c|) && j < |slots| && TakeInt(slots[j].with, c).Some?
    ensures i <= j && FirstTaken(slots, c, i)
  {
    i := 0;
    while TakeInt(slots[i].with, c).None?
      invariant i <= j && forall k :: 0 <= k < i ==> TakeInt(slots[k].with, c).None?
      decreases j - i
    {
      i := i + 1;
    }
  }

  // ----- When it returns

  ghost predicate GoesDown(slots: seq<OrSlot>, c: IntCounts, D: IntCounts -> bool, weight: IntCounts -> nat)
    requires KnownSlots(slots, |c|)
  {
    forall i :: 0 <= i < |slots| ==>
      var left := TakeInt(slots[i].with, c);
      left.Some? ==> D(left.value) && weight(left.value) < weight(c)
  }

  /** Every alternative that can be granted from counts in `D` leads to counts in `D` of less weight. */
  ghost predicate Descends(slots: seq<OrSlot>, types: nat, D: IntCounts -> bool, weight: IntCounts -> nat)
    requires KnownSlots(slots, types)
  {
    forall c {:trigger D(c)} :: D(c) ==> |c| == types && GoesDown(slots, c, D, weight)
  }

  lemma {:induction false} DescentReturns(slots: seq<OrSlot>, c: IntCounts, rows: Rows, fuel: nat,
                                          D: IntCounts -> bool, weight: IntCounts -> nat)
    requires KnownSlots(slots, |c|) && |slots| != 1 && Descends(slots, |c|, D, weight) && D(c) && fuel > weight(c)
    ensures Search(slots, c, rows, fuel).Some?
    decreases fuel, 1
  {
    LoopReturns(slots, c, rows, 0, -1, fuel, D, weight);
  }

  lemma {:induction false} LoopReturns(slots: seq<OrSlot>, c: IntCounts, rows: Rows, i: nat, best: int, fuel: nat,
                                       D: IntCounts -> bool, weight: IntCounts -> nat)
    requires KnownSlots(slots, |c|) && |slots| != 1 && Descends(slots, |c|, D, weight) && D(c) && fuel > weight(c)
    requires i <= |slots| && best >= -1 && (best >= 0 ==> c in rows)
    ensures Loop(slots, c, rows, i, best, fuel).Some?
    decreases fuel, 0, |slots| - i
  {
    if i < |slots| {
      match TakeInt(slots[i].with, c)
      case None => LoopReturns(slots, c, rows, i + 1, best, fuel, D, weight);
      case Some(left) =>
        DescentReturns(slots, left, rows, fuel - 1, D, weight);
        var found := Search(slots, left, rows, fuel - 1).value;
        var test := found[left].score;
        LoopReturns(slots, c, Keep(c, found, left, best, i), i + 1, if best < test then test else best, fuel, D, weight);
    }
  }

  lemma {:induction false} DescentStays(slots: seq<OrSlot>, types: nat, p: seq<IntCounts>,
                                        D: IntCounts -> bool, weight: IntCounts -> nat)
    requires KnownSlots(slots, types) && Descends(slots, types, D, weight) && IsRun(slots, types, p) && D(p[0])
    ensures D(p[|p| - 1])
    decreases |p|
  {
    if |p| > 1 {
      assert Grants(slots, types, p[0], p[1]);
      DescentStays(slots, types, p[1..], D, weight);
    }
  }

  lemma {:induction false} DescentEnds(slots: seq<OrSlot>, types: nat, c: IntCounts, D: IntCounts -> bool,
                                       weight: IntCounts -> nat)
    requires Sized(slots, types, c) && Descends(slots, types, D, weight) && D(c)
    ensures Ends(slots, types, c)
    decreases weight(c)
  {
    EndsStep(slots, types, c);
    FirstGrantIs(slots, c, 0);
    if FirstGrant(slots, c, 0).Some? {
      DescentEnds(slots, types, FirstGrant(slots, c, 0).value, D, weight);
    }
  }

  lemma {:induction false} FirstGrantIs(slots: seq<OrSlot>, c: IntCounts, k: nat)
    requires KnownSlots(slots, |c|) && k <= |slots|
    ensures FirstGrant(slots, c, k).Some? ==>
              exists i :: 0 <= i < |slots| && TakeInt(slots[i].with, c) == FirstGrant(slots, c, k)
    decreases |slots| - k
  {
    if k < |slots| && TakeInt(slots[k].with, c).None? {
      FirstGrantIs(slots, c, k + 1);
    }
  }

  lemma DescendingReturns(slots: seq<OrSlot>, types: nat, c: IntCounts, D: IntCounts -> bool, weight: IntCounts -> nat)
    requires Sized(slots, types, c) && Descends(slots, types, D, weight) && D(c)
    ensures Returns(slots, c)
  {
    forall d | CanLeave(slots, types, c, d)
      ensures Ends(slots, types, d)
    {
      var p :| IsRun(slots, types, p) && p[0] == c && p[|p| - 1] == d;
      DescentStays(slots, types, p, D, weight);
      DescentEnds(slots, types, d, D, weight);
    }
    ReturnsExactly(slots, types, c);
  }

  ghost predicate InRange(c: IntCounts) {
    forall t :: 0 <= t < |c| ==> 0 <= c[t] <= INT_MAX
  }

  /** On a slot of distinct types and counts that are not negative, the unsigned reading changes nothing. */
  lemma {:induction false} TakeAgrees(with: seq<Elem>, counts: IntCounts)
    requires ValidShape(with, |counts|) && InRange(counts)
    ensures TakeInt(with, counts).Some? <==> Take(with, counts).Some?
    ensures Take(with, counts).Some? ==> TakeInt(with, counts).value == Take(with, counts).value
    ensures Take(with, counts).Some? ==> InRange(Take(with, counts).value)
  {
    if with != [] {
      var l := |with| - 1;
      var init, last := with[..l], with[l];
      TakeAgrees(init, counts);
      if Take(init, counts).Some? {
        LastUntouched(with, counts);
        TakesSame(counts, Take(init, counts).value, last);
      }
    }
  }

  lemma LastUntouched(with: seq<Elem>, counts: IntCounts)
    requires ValidShape(with, |counts|) && InRange(counts) && with != []
    requires Take(with[..|with| - 1], counts).Some?
    ensures var t := with[|with| - 1].rtype; t < |counts| && Take(with[..|with| - 1], counts).value[t] == counts[t]
  {
    assert forall e <- with[..|with| - 1] :: e.rtype != with[|with| - 1].rtype;
  }

  lemma TakesSame(counts: IntCounts, left: IntCounts, e: Elem)
    requires InRange(counts) && InRange(left) && |left| == |counts| && e.operand >= 1 && e.rtype < |counts|
    requires left[e.rtype] == counts[e.rtype]
    ensures var t := e.rtype;
            var q := CalcCount(e, counts[t]);
            && CalcCount(e, Unsigned(counts[t])) == q && Minus(left[t], q) == left[t] - q
            && InRange(left[t := left[t] - q])
  {}

  function Weight(c: IntCounts): nat {
    if c == [] then 0 else Unsigned(c[0]) + Weight(c[1..])
  }

  lemma {:induction false} WeightIsSum(c: IntCounts)
    requires InRange(c)
    ensures Weight(c) == Sum(c)
  {
    if c != [] {
      WeightIsSum(c[1..]);
    }
  }

  /** Alternatives that each ask for something and name no type twice: the search returns on any counts. */
  lemma ValidSlotsReturn(slots: seq<OrSlot>, counts: IntCounts)
    requires ValidSlots(slots, |counts|) && |slots| != 1 && InRange(counts)
    ensures Returns(slots, counts)
  {
    var D := (c: IntCounts) => |c| == |counts| && forall t :: 0 <= t < |c| ==> 0 <= c[t] <= INT_MAX;
    ValidSlotsDescend(slots, |counts|, D);
    DescendingReturns(slots, |counts|, counts, D, Weight);
  }

  lemma ValidSlotsDescend(slots: seq<OrSlot>, types: nat, D: IntCounts -> bool)
    requires ValidSlots(slots, types) && |slots| != 1
    requires forall c :: D(c) <==> |c| == types && InRange(c)
    ensures Descends(slots, types, D, Weight)
  {
    forall c: IntCounts, i: nat | D(c) && i < |slots| && TakeInt(slots[i].with, c).Some?
      ensures D(TakeInt(slots[i].with, c).value) && Weight(TakeInt(slots[i].with, c).value) < Weight(c)
    {
      TakeAgrees(slots[i].with, c);
      WeightIsSum(c);
      WeightIsSum(TakeInt(slots[i].with, c).value);
    }
  }

  // ----- A slot that names a type twice

  /** Two of type 0, named one by one, or one of type 1. */
  const ONE := Elem(0, 1, 1, 1)
  const TWICE := [OrSlot([ONE, ONE]), OrSlot([Elem(1, 1, 1, 1)])]

  /** The pair goes from one to the largest unsigned value. */
  lemma PairTaken(c: IntCounts)
    requires |c| == 2 && KnownSlots(TWICE, 2)
    ensures var left := TakeInt(TWICE[0].with, c);
            && (left.Some? <==> Unsigned(c[0]) >= 1)
            && (left.Some? ==> left.value[1] == c[1] && Unsigned(left.value[0]) == LessTwo(Unsigned(c[0])))
  {
    PairLeft(c);
    MinusTwo(c[0]);
  }

  lemma PairLeft(c: IntCounts)
    requires |c| == 2 && KnownSlots(TWICE, 2)
    ensures TakeInt(TWICE[0].with, c) ==
              if Unsigned(c[0]) == 0 then None else Some(c[0 := Minus(Minus(c[0], 1), 1)])
  {
    TakeTwo(c);
    assert [Elem(0, 1, 1, 1), Elem(0, 1, 1, 1)] == TWICE[0].with;
  }

  lemma TakeTwo(c: IntCounts)
    requires |c| == 2
    ensures KnownShape([Elem(0, 1, 1, 1), Elem(0, 1, 1, 1)], 2)
    ensures TakeInt([Elem(0, 1, 1, 1), Elem(0, 1, 1, 1)], c) ==
              if Unsigned(c[0]) == 0 then None else Some(c[0 := Minus(Minus(c[0], 1), 1)])
  {
    var e, x := Elem(0, 1, 1, 1), Minus(c[0], 1);
    var first := if Unsigned(c[0]) == 0 then None else Some(c[0 := x]);
    TakeUnit([], c, 0, Some(c));
    assert [] + [e] == [e];
    TakeUnit([e], c, 0, first);
    assert [e] + [e] == [e, e];
    UpdateTwice(c, x, Minus(x, 1));
  }

  lemma UpdateTwice(c: IntCounts, x: Int32, y: Int32)
    requires |c| == 2
    ensures c[0 := x][0] == x && c[0 := x][0 := y] == c[0 := y]
  {}

  lemma MinusTwo(x: Int32)
    ensures Unsigned(x) >= 1 ==> Unsigned(Minus(Minus(x, 1), 1)) == LessTwo(Unsigned(x))
  {}

  lemma SingleTaken(c: IntCounts)
    requires |c| == 2 && KnownSlots(TWICE, 2)
    ensures var left := TakeInt(TWICE[1].with, c);
            && (left.Some? <==> Unsigned(c[1]) >= 1)
            && (left.Some? ==> left.value[0] == c[0] && Unsigned(left.value[1]) == Unsigned(c[1]) - 1)
  {
    assert TakeInt([], c) == Some(c);
    TakeUnit([], c, 1, Some(c));
    assert [] + [Elem(1, 1, 1, 1)] == TWICE[1].with;
  }

  /** One more element that asks for one unit of type `t`. */
  lemma TakeUnit(with: seq<Elem>, c: IntCounts, t: nat, taken: Option<IntCounts>)
    requires KnownShape(with, |c|) && t < |c| && TakeInt(with, c) == taken
    ensures var e := Elem(t, 1, 1, 1);
            KnownShape(with + [e], |c|) &&
            TakeInt(with + [e], c) ==
              if taken.None? || Unsigned(c[t]) == 0 then None
              else Some(taken.value[t := Minus(taken.value[t], 1)])
  {
    assert (with + [Elem(t, 1, 1, 1)])[..|with|] == with;
  }

  function LessTwo(u: nat): nat {
    if u >= 2 then u - 2 else 0xffff_fffe + u
  }

  /** An odd count goes down to one, then below zero, and never ends: the search returns if and only if the count
      is even. */
  lemma TwiceReturnsIfEven(c: IntCounts)
    requires |c| == 2
    ensures KnownSlots(TWICE, 2) && (Returns(TWICE, c) <==> c[0] % 2 == 0)
  {
    assert Unsigned(c[0]) % 2 == c[0] % 2;
    if Unsigned(c[0]) % 2 == 0 {
      EvenDescends();
      DescendingReturns(TWICE, 2, c, EvenPair, Weight);
    } else {
      OddIsEndless();
      EndlessDoesNotReturn(TWICE, 2, c, OddPair);
    }
  }

  predicate EvenPair(c: IntCounts) {
    |c| == 2 && Unsigned(c[0]) % 2 == 0
  }

  predicate OddPair(c: IntCounts) {
    |c| == 2 && Unsigned(c[0]) % 2 == 1
  }

  lemma WeightOfTwo(c: IntCounts)
    requires |c| == 2
    ensures Weight(c) == Unsigned(c[0]) + Unsigned(c[1])
  {
    assert c[1..] == [c[1]] && c[1..][1..] == [];
  }

  lemma EvenDescends()
    requires KnownSlots(TWICE, 2)
    ensures Descends(TWICE, 2, EvenPair, Weight)
  {
    forall c | EvenPair(c)
      ensures GoesDown(TWICE, c, EvenPair, Weight)
    {
      PairDescends(c);
      SingleDescends(c);
    }
  }

  lemma PairDescends(c: IntCounts)
    requires EvenPair(c) && KnownSlots(TWICE, 2)
    ensures var left := TakeInt(TWICE[0].with, c);
            left.Some? ==> EvenPair(left.value) && Weight(left.value) < Weight(c)
  {
    PairTaken(c);
    WeightOfTwo(c);
    if TakeInt(TWICE[0].with, c).Some? {
      WeightOfTwo(TakeInt(TWICE[0].with, c).value);
    }
  }

  lemma SingleDescends(c: IntCounts)
    requires EvenPair(c) && KnownSlots(TWICE, 2)
    ensures var left := TakeInt(TWICE[1].with, c);
            left.Some? ==> EvenPair(left.value) && Weight(left.value) < Weight(c)
  {
    SingleTaken(c);
    WeightOfTwo(c);
    if TakeInt(TWICE[1].with, c).Some? {
      WeightOfTwo(TakeInt(TWICE[1].with, c).value);
    }
  }

  lemma OddIsEndless()
    requires KnownSlots(TWICE, 2)
    ensures Endless(TWICE, 2, OddPair)
  {
    forall c | OddPair(c)
      ensures GoesOn(TWICE, c, OddPair)
    {
      PairTaken(c);
      assert FirstTaken(TWICE, c, 0) && OddPair(TakeInt(TWICE[0].with, c).value);
    }
  }

  // ----- Exactly when the counts stay in range and go down

  /** Every alternative granted from counts that are not negative leaves less, and nothing negative. */
  ghost predicate Steady(slots: seq<OrSlot>, types: nat)
    requires KnownSlots(slots, types)
  {
    forall c: IntCounts, i: nat :: |c| == types && InRange(c) && i < |slots| ==> SteadyAt(slots[i].with, c)
  }

  ghost predicate SteadyAt(with: seq<Elem>, c: IntCounts)
    requires KnownShape(with, |c|)
  {
    var left := TakeInt(with, c);
    left.Some? ==> InRange(left.value) && Weight(left.value) < Weight(c)
  }

  /** For fixed amounts that fit an int: if and only if every alternative asks for something and names no type
      twice. */
  lemma SteadyExactly(slots: seq<OrSlot>, types: nat)
    requires KnownSlots(slots, types) && Fixed(slots)
    requires forall i, t: nat :: 0 <= i < |slots| ==> SlotDemand(slots[i].with, t) <= INT_MAX
    ensures Steady(slots, types)
            <==> forall i :: 0 <= i < |slots| ==> slots[i].with != [] && ValidShape(slots[i].with, types)
  {
    if forall i :: 0 <= i < |slots| ==> slots[i].with != [] && ValidShape(slots[i].with, types) {
      forall c: IntCounts, i: nat | |c| == types && InRange(c) && i < |slots|
        ensures SteadyAt(slots[i].with, c)
      {
        ValidIsSteady(slots[i].with, c);
      }
    } else {
      var i :| 0 <= i < |slots| && !(slots[i].with != [] && ValidShape(slots[i].with, types));
      var c := Unsteady(slots[i].with, types);
      assert |c| == types && InRange(c) && !SteadyAt(slots[i].with, c);
    }
  }

  lemma ValidIsSteady(with: seq<Elem>, c: IntCounts)
    requires with != [] && ValidShape(with, |c|) && InRange(c)
    ensures SteadyAt(with, c)
  {
    TakeAgrees(with, c);
    if TakeInt(with, c).Some? {
      WeightIsSum(c);
      WeightIsSum(TakeInt(with, c).value);
    }
  }

  /** Otherwise counts that hold the largest single request of each type show it. */
  lemma Unsteady(with: seq<Elem>, types: nat) returns (c: IntCounts)
    requires KnownShape(with, types) && FixedShape(with) && (with == [] || !ValidShape(with, types))
    requires forall t: nat :: SlotDemand(with, t) <= INT_MAX
    ensures |c| == types && InRange(c) && !SteadyAt(with, c)
  {
    forall t: nat
      ensures Largest(with, t) <= SlotDemand(with, t)
    {
      LargestAtMost(with, t);
    }
    c := seq<Int32>(types, t requires 0 <= t < types && Largest(with, t) <= INT_MAX => Largest(with, t));
    if with != [] {
      forall e <- with
        ensures 1 <= e.min <= c[e.rtype]
      {
        LargestCovers(with, e);
      }
      TakeSucceeds(with, c);
      var i, j :| 0 <= i < j < |with| && with[i].rtype == with[j].rtype;
      var t := with[i].rtype;
      RepeatedIsMore(with, t, i, j);
      TakeTelescopes(with, c, t);
    }
  }

  function Largest(with: seq<Elem>, t: nat): nat {
    if with == [] then 0
    else
      var last, before := with[|with| - 1], Largest(with[..|with| - 1], t);
      if last.rtype == t && last.min > before then last.min else before
  }

  lemma {:induction false} LargestAtMost(with: seq<Elem>, t: nat)
    ensures Largest(with, t) <= SlotDemand(with, t)
  {
    if with != [] {
      LargestAtMost(with[..|with| - 1], t);
    }
  }

  lemma {:induction false} LargestCovers(with: seq<Elem>, e: Elem)
    requires e in with
    ensures e.min <= Largest(with, e.rtype)
  {
    if e != with[|with| - 1] {
      LargestCovers(with[..|with| - 1], e);
    }
  }

  lemma {:induction false} RepeatedIsMore(with: seq<Elem>, t: nat, i: nat, j: nat)
    requires FixedShape(with) && i < j < |with| && with[i].rtype == t == with[j].rtype
    ensures Largest(with, t) < SlotDemand(with, t)
  {
    var l := |with| - 1;
    var init := with[..l];
    assert with[l] in with && with[i] in with && forall e <- init :: e in with;
    if j < l {
      RepeatedIsMore(init, t, i, j);
    } else {
      assert init[i] in init;
      LargestCovers(init, init[i]);
    }
    LargestAtMost(init, t);
  }

  lemma {:induction false} TakeSucceeds(with: seq<Elem>, c: IntCounts)
    requires KnownShape(with, |c|) && FixedShape(with) && forall e <- with :: e.min <= Unsigned(c[e.rtype])
    ensures TakeInt(with, c).Some?
  {
    if with != [] {
      var init := with[..|with| - 1];
      assert with[|with| - 1] in with && forall e <- init :: e in with;
      TakeSucceeds(init, c);
    }
  }

  /** Where every element can be granted, the counts lose the whole demand of the slot. */
  lemma {:induction false} TakeTelescopes(with: seq<Elem>, c: IntCounts, t: nat)
    requires KnownShape(with, |c|) && FixedShape(with) && TakeInt(with, c).Some? && t < |c|
    requires c[t] >= 0 && SlotDemand(with, t) <= INT_MAX
    ensures TakeInt(with, c).value[t] == c[t] - SlotDemand(with, t)
  {
    if with != [] {
      var init, last := with[..|with| - 1], with[|with| - 1];
      assert last in with && forall e <- init :: e in with;
      TakeTelescopes(init, c, t);
    }
  }
}
