/** When the slot count does not depend on the order of the egroups
    (cnt_slot in resource/traversers/dfu_impl.cpp, after dom_finish_slot has sorted them by score). */
module Granules {
  import opened Common
  import opened Jobspec
  import opened SlotPacking

  function CeilDiv(c: nat, g: nat): (b: nat)
    requires g >= 1
    ensures c <= b * g && (b == 0 <==> c == 0) && (b > 0 ==> (b - 1) * g < c)
  {
    CeilDivBounds(c, g);
    (c + g - 1) / g
  }

  lemma CeilDivBounds(c: nat, g: nat)
    requires g >= 1
    ensures var b := (c + g - 1) / g; c <= b * g && (b == 0 <==> c == 0) && (b > 0 ==> (b - 1) * g < c)
  {
    var b := (c + g - 1) / g;
    assert c + g - 1 == b * g + (c + g - 1) % g;
    assert (b - 1) * g == b * g - g;
    if c == 0 {
      assert b > 0 ==> b * g >= g;
    }
  }

  lemma MulMonotone(a: nat, b: nat, m: nat)
    requires a <= b
    ensures a * m <= b * m && m * a <= m * b
  {
    assert (b - a) * m >= 0;
    assert (b - a) * m == b * m - a * m;
  }

  // ----- Sufficient: granules that need the same number for a share

  lemma {:induction false} RangeBounds(sizes: seq<nat>, from: nat, to: nat, lo: nat, hi: nat)
    requires from <= to <= |sizes| && forall i :: 0 <= i < |sizes| ==> lo <= sizes[i] <= hi
    ensures (to - from) * lo <= SumRange(sizes, from, to) <= (to - from) * hi
    decreases |sizes| - from
  {
    if from < to {
      RangeBounds(sizes, from + 1, to, lo, hi);
      assert (to - from) * lo == (to - from - 1) * lo + lo;
      assert (to - from) * hi == (to - from - 1) * hi + hi;
    }
  }

  /** If the smallest and the largest granule need the same number `b` for `c` units, every bundle has `b` of them. */
  lemma UniformBundle(sizes: seq<nat>, from: nat, c: nat, lo: nat, hi: nat)
    requires c >= 1 && 1 <= lo <= hi && CeilDiv(c, lo) == CeilDiv(c, hi) && from <= |sizes|
    requires forall i :: 0 <= i < |sizes| ==> lo <= sizes[i] <= hi
    ensures var b := CeilDiv(c, lo); BundleEnd(sizes, from, c) == if from + b <= |sizes| then Some(from + b) else None
  {
    var b := CeilDiv(c, lo);
    if from + b <= |sizes| {
      RangeBounds(sizes, from, from + b, lo, hi);
      RangeBounds(sizes, from, from + b - 1, lo, hi);
      BundleEndIsLeast(sizes, from, c, from + b);
      BundleEndIsLeast(sizes, from, c, from + b - 1);
    } else {
      RangeBounds(sizes, from, |sizes|, lo, hi);
      MulMonotone(|sizes| - from, b - 1, hi);
      BundleEndIsLeast(sizes, from, c, |sizes|);
    }
  }

  /** Then the share count is floor(n / b), whatever the order. */
  lemma UniformShares(sizes: seq<nat>, from: nat, c: nat, lo: nat, hi: nat)
    requires c >= 1 && 1 <= lo <= hi && CeilDiv(c, lo) == CeilDiv(c, hi) && from <= |sizes|
    requires forall i :: 0 <= i < |sizes| ==> lo <= sizes[i] <= hi
    ensures CeilDiv(c, lo) >= 1 && Shares(sizes, from, c) == (|sizes| - from) / CeilDiv(c, lo)
  {
    var b := CeilDiv(c, lo);
    forall f | 0 <= f <= |sizes|
      ensures BundleEnd(sizes, f, c) == if f + b <= |sizes| then Some(f + b) else None
    {
      UniformBundle(sizes, f, c, lo, hi);
    }
    SharesByLength(sizes, from, c, b);
  }

  lemma {:induction false} SharesByLength(sizes: seq<nat>, from: nat, c: nat, b: nat)
    requires c >= 1 && b >= 1 && from <= |sizes|
    requires forall f :: 0 <= f <= |sizes| ==> BundleEnd(sizes, f, c) == if f + b <= |sizes| then Some(f + b) else None
    ensures Shares(sizes, from, c) == (|sizes| - from) / b
    decreases |sizes| - from
  {
    if from + b <= |sizes| {
      SharesByLength(sizes, from + b, c, b);
      DivStep(|sizes| - from, b);
    } else {
      DivUnique(|sizes| - from, b, 0, |sizes| - from);
    }
  }

  lemma DivStep(n: nat, b: nat)
    requires 1 <= b <= n
    ensures n / b == 1 + (n - b) / b
  {
    var q, r := (n - b) / b, (n - b) % b;
    assert n == (q + 1) * b + r;
    DivUnique(n, b, q + 1, r);
  }

  lemma DivUnique(n: nat, b: nat, q: nat, r: nat)
    requires b >= 1 && r < b && n == q * b + r
    ensures n / b == q
  {
    var q' := n / b;
    assert q' > q ==> q' * b >= (q + 1) * b;
    assert q' < q ==> q * b >= (q' + 1) * b;
  }

  // ----- Necessary: two granules that need different numbers

  function Copies(x: nat, n: nat): (s: seq<nat>)
    ensures |s| == n && forall i :: 0 <= i < n ==> s[i] == x
  {
    if n == 0 then [] else [x] + Copies(x, n - 1)
  }

  /** A share made of `m` small granules and a large one, `n` times over. */
  function Blocks(small: nat, m: nat, large: nat, n: nat): seq<nat> {
    if n == 0 then [] else Copies(small, m) + [large] + Blocks(small, m, large, n - 1)
  }

  /** What is before `from` does not matter. */
  lemma {:induction false} BundleShift(a: seq<nat>, b: seq<nat>, from: nat, c: nat)
    requires from <= |b|
    ensures BundleEnd(a + b, |a| + from, c) ==
            match BundleEnd(b, from, c) case None => None case Some(to) => Some(|a| + to)
    decreases |b| - from
  {
    if c > 0 && from < |b| {
      BundleShift(a, b, from + 1, if c <= b[from] then 0 else c - b[from]);
    }
  }

  lemma {:induction false} SharesShift(a: seq<nat>, b: seq<nat>, from: nat, c: nat)
    requires from <= |b| && c >= 1
    ensures Shares(a + b, |a| + from, c) == Shares(b, from, c)
    decreases |b| - from
  {
    BundleShift(a, b, from, c);
    if BundleEnd(b, from, c).Some? {
      SharesShift(a, b, BundleEnd(b, from, c).value, c);
    }
  }

  /** A first bundle that ends where `a` does leaves the shares of the rest. */
  lemma SharesAfter(a: seq<nat>, b: seq<nat>, c: nat)
    requires c >= 1 && BundleEnd(a + b, 0, c) == Some(|a|)
    ensures Shares(a + b, 0, c) == 1 + Shares(b, 0, c)
  {
    SharesShift(a, b, 0, c);
  }

  lemma {:induction false} SumCopies(x: nat, n: nat, rest: seq<nat>, from: nat, to: nat)
    requires from <= to <= n
    ensures SumRange(Copies(x, n) + rest, from, to) == (to - from) * x
    decreases |Copies(x, n)| - from
  {
    if from < to {
      SumCopies(x, n, rest, from + 1, to);
      assert (to - from) * x == (to - from - 1) * x + x;
    }
  }

  lemma {:induction false} SumSplit(s: seq<nat>, from: nat, mid: nat, to: nat)
    requires from <= mid <= to <= |s|
    ensures SumRange(s, from, to) == SumRange(s, from, mid) + SumRange(s, mid, to)
    decreases |s| - from
  {
    if from < mid {
      SumSplit(s, from + 1, mid, to);
    }
  }

  /** `b - 1` small granules are not enough for a share and any larger one completes it. */
  lemma BlockIsAShare(small: nat, large: nat, c: nat, rest: seq<nat>)
    requires c >= 1 && 1 <= small < large
    ensures var block := Copies(small, CeilDiv(c, small) - 1) + [large];
            Shares(block + rest, 0, c) == 1 + Shares(rest, 0, c)
  {
    var m := CeilDiv(c, small) - 1;
    var block := Copies(small, m) + [large];
    var s := block + rest;
    assert s == Copies(small, m) + ([large] + rest);
    SumCopies(small, m, [large] + rest, 0, m);
    SumSplit(s, 0, m, m + 1);
    assert (m + 1) * small == m * small + small;
    assert SumRange(s, m, m + 1) == s[m] + SumRange(s, m + 1, m + 1) == large;
    BundleEndIsLeast(s, 0, c, m);
    BundleEndIsLeast(s, 0, c, m + 1);
    SharesAfter(block, rest, c);
  }

  lemma {:induction false} BlockShares(small: nat, large: nat, c: nat, n: nat)
    requires c >= 1 && 1 <= small < large
    ensures Shares(Blocks(small, CeilDiv(c, small) - 1, large, n), 0, c) == n
  {
    if n > 0 {
      var m := CeilDiv(c, small) - 1;
      BlockShares(small, large, c, n - 1);
      BlockIsAShare(small, large, c, Blocks(small, m, large, n - 1));
    }
  }

  /** `n` whole shares of equal granules come first. */
  lemma {:induction false} CopiesShares(x: nat, c: nat, n: nat, all: nat, rest: seq<nat>)
    requires c >= 1 && x >= 1 && all == n * CeilDiv(c, x)
    ensures Shares(Copies(x, all) + rest, 0, c) == n + Shares(rest, 0, c)
    decreases n
  {
    var b := CeilDiv(c, x);
    if n == 0 {
      assert Copies(x, 0) + rest == rest;
    } else {
      var less := (n - 1) * b;
      assert all == b + less;
      var more := Copies(x, less) + rest;
      CopiesSplit(x, b, less);
      assert Copies(x, all) + rest == Copies(x, b) + more;
      SumCopies(x, b, more, 0, b);
      SumCopies(x, b, more, 0, b - 1);
      BundleEndIsLeast(Copies(x, b) + more, 0, c, b);
      BundleEndIsLeast(Copies(x, b) + more, 0, c, b - 1);
      SharesAfter(Copies(x, b), more, c);
      CopiesShares(x, c, n - 1, less, rest);
    }
  }

  lemma CopiesSplit(x: nat, m: nat, n: nat)
    ensures Copies(x, m + n) == Copies(x, m) + Copies(x, n)
  {}

  lemma {:induction false} BlocksSorted(small: nat, m: nat, large: nat, n: nat, all: nat)
    requires all == n * m
    ensures multiset(Blocks(small, m, large, n)) == multiset(Copies(small, all) + Copies(large, n))
    decreases n
  {
    if n == 0 {
      assert all == 0;
    } else {
      var less := LessOne(n, m);
      BlocksSorted(small, m, large, n - 1, less);
      CopiesSplit(small, m, less);
      Shuffle(Copies(small, m), Copies(small, less), large, Copies(large, n - 1), Blocks(small, m, large, n - 1),
              Copies(small, all), Copies(large, n), Blocks(small, m, large, n));
    }
  }

  lemma LessOne(n: nat, m: nat) returns (less: nat)
    requires n >= 1
    ensures less == (n - 1) * m && n * m == m + less
  {
    less := (n - 1) * m;
  }

  lemma Shuffle(a: seq<nat>, b: seq<nat>, x: nat, d: seq<nat>, rest: seq<nat>, smalls: seq<nat>, larges: seq<nat>,
                blocks: seq<nat>)
    requires smalls == a + b && larges == [x] + d && blocks == a + [x] + rest && multiset(rest) == multiset(b + d)
    ensures multiset(blocks) == multiset(smalls + larges)
  {}

  /** Two granules that need different numbers for a share: some egroups of these sizes give two counts. */
  lemma OrderMatters(small: nat, large: nat, c: nat) returns (one: seq<nat>, other: seq<nat>)
    requires c >= 1 && 1 <= small < large && CeilDiv(c, small) != CeilDiv(c, large)
    ensures multiset(one) == multiset(other) && Shares(one, 0, c) != Shares(other, 0, c)
    ensures forall i :: 0 <= i < |one| ==> one[i] == small || one[i] == large
  {
    var b1, b2 := CeilDiv(c, small), CeilDiv(c, large);
    var n, k, all := Regroup(b1, b2);
    one, other := TwoOrders(small, large, c, b1, n, k, all);
  }

  lemma TwoOrders(small: nat, large: nat, c: nat, b: nat, n: nat, k: nat, all: nat)
    returns (one: seq<nat>, other: seq<nat>)
    requires c >= 1 && 1 <= small < large && b == CeilDiv(c, small) && n == b * CeilDiv(c, large)
    requires all == n * (b - 1) && all == k * b && k + b != n
    ensures multiset(one) == multiset(other) && Shares(one, 0, c) != Shares(other, 0, c)
    ensures forall i :: 0 <= i < |one| ==> one[i] == small || one[i] == large
  {
    one := Blocks(small, b - 1, large, n);
    other := Copies(small, all) + Copies(large, n);
    BlocksSorted(small, b - 1, large, n, all);
    BlockShares(small, large, c, n);
    SortedShares(small, large, c, k, all, b, n);
    BlocksMembers(small, b - 1, large, n);
  }

  lemma SortedShares(small: nat, large: nat, c: nat, i: nat, m: nat, j: nat, n: nat)
    requires c >= 1 && 1 <= small < large && m == i * CeilDiv(c, small) && n == j * CeilDiv(c, large)
    ensures Shares(Copies(small, m) + Copies(large, n), 0, c) == i + j
  {
    CopiesShares(small, c, i, m, Copies(large, n));
    CopiesShares(large, c, j, n, []);
    assert Copies(large, n) + [] == Copies(large, n);
    assert Shares([], 0, c) == 0;
  }

  lemma Regroup(b1: nat, b2: nat) returns (n: nat, k: nat, all: nat)
    requires b1 >= 1
    ensures n == b1 * b2 && all == n * (b1 - 1) && all == k * b1 && k + b2 == n
  {
    n, k := b1 * b2, b2 * (b1 - 1);
    all := n * (b1 - 1);
    assert b1 * b2 == b2 * b1;
    assert n * (b1 - 1) == b1 * k;
  }

  lemma {:induction false} BlocksMembers(small: nat, m: nat, large: nat, n: nat)
    ensures forall i :: 0 <= i < |Blocks(small, m, large, n)| ==>
              Blocks(small, m, large, n)[i] == small || Blocks(small, m, large, n)[i] == large
  {
    if n > 0 {
      BlocksMembers(small, m, large, n - 1);
    }
  }

  // ----- Exactly when the order does not matter

  ghost predicate Over(sizes: seq<nat>, granules: set<nat>) {
    forall i :: 0 <= i < |sizes| ==> sizes[i] in granules
  }

  /** Egroups of these sizes give the same count in every order. */
  ghost predicate OrderFree(c: nat, granules: set<nat>)
    requires c >= 1
  {
    forall one: seq<nat>, other: seq<nat> :: Over(one, granules) && multiset(one) == multiset(other) ==>
      Shares(one, 0, c) == Shares(other, 0, c)
  }

  /** The order of the egroups does not matter if and only if every granule needs the same number for a share. */
  lemma OrderFreeExactly(c: nat, granules: set<nat>)
    requires c >= 1 && forall g :: g in granules ==> g >= 1
    ensures OrderFree(c, granules) <==> forall g, h :: g in granules && h in granules ==> CeilDiv(c, g) == CeilDiv(c, h)
  {
    if OrderFree(c, granules) {
      forall g, h | g in granules && h in granules
        ensures CeilDiv(c, g) == CeilDiv(c, h)
      {
        if CeilDiv(c, g) != CeilDiv(c, h) {
          var one, other := OrderMatters(if g < h then g else h, if g < h then h else g, c);
          assert Over(one, granules);
        }
      }
    } else {
      var one: seq<nat>, other: seq<nat> :| Over(one, granules) && multiset(one) == multiset(other)
                                            && Shares(one, 0, c) != Shares(other, 0, c);
      if forall g, h :: g in granules && h in granules ==> CeilDiv(c, g) == CeilDiv(c, h) {
        SameBundles(one, other, c, granules);
      }
    }
  }

  lemma SameBundles(one: seq<nat>, other: seq<nat>, c: nat, granules: set<nat>)
    requires c >= 1 && (forall g :: g in granules ==> g >= 1) && Over(one, granules) && multiset(one) == multiset(other)
    requires forall g, h :: g in granules && h in granules ==> CeilDiv(c, g) == CeilDiv(c, h)
    ensures Shares(one, 0, c) == Shares(other, 0, c)
  {
    Permuted(one, other);
    if one == [] {
      assert other == [];
    } else {
      var lo, hi := Ends(one);
      forall i | 0 <= i < |other|
        ensures lo <= other[i] <= hi
      {
        assert other[i] in one;
      }
      UniformShares(one, 0, c, lo, hi);
      UniformShares(other, 0, c, lo, hi);
    }
  }

  lemma Permuted(one: seq<nat>, other: seq<nat>)
    requires multiset(one) == multiset(other)
    ensures |one| == |other| && forall i :: 0 <= i < |other| ==> other[i] in one
  {
    assert |one| == |multiset(one)| == |multiset(other)| == |other|;
    forall i | 0 <= i < |other|
      ensures other[i] in one
    {
      assert other[i] in multiset(other);
    }
  }

  lemma {:induction false} Ends(s: seq<nat>) returns (lo: nat, hi: nat)
    requires s != []
    ensures lo in s && hi in s && forall i :: 0 <= i < |s| ==> lo <= s[i] <= hi
  {
    if |s| == 1 {
      lo, hi := s[0], s[0];
    } else {
      lo, hi := Ends(s[1..]);
      if s[0] < lo {
        lo := s[0];
      }
      if s[0] > hi {
        hi := s[0];
      }
    }
  }
}
