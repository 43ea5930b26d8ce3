/**
 * Scored candidates of one resource type and the choice of the best k units
 * among them: resource/evaluators/edge_eval_api.hpp and .cpp, with the orders
 * of resource/evaluators/fold.hpp.
 */
module BestK {
  import opened Common

  /** eval_egroup_t without its edges. */
  datatype Egroup = Egroup(score: int, count: nat, needs: nat, exclusive: nat, root: bool)

  /**
   * A comparison of fold.hpp: `rank` orders the scores, the smaller the better.  Descending and
   * ascending scores are the ranks -x and x; the interval orders rank a score by its interval.
   */
  datatype Order = Order(rank: int -> int)

  const Descending := Order((x: int) => -x)

  predicate Better(o: Order, a: Egroup, b: Egroup) {
    o.rank(a.score) < o.rank(b.score)
  }

  ghost predicate Sorted(o: Order, s: seq<Egroup>) {
    forall i, j :: 0 <= i < j < |s| ==> !Better(o, s[j], s[i])
  }

  function Total(s: seq<Egroup>): nat {
    if s == [] then 0 else Total(s[..|s| - 1]) + s[|s| - 1].count
  }

  /** The units whose score is above the cutline. */
  function Qualified(s: seq<Egroup>, cutline: int): nat {
    if s == [] then 0
    else Qualified(s[..|s| - 1], cutline) + if s[|s| - 1].score > cutline then s[|s| - 1].count else 0
  }

  lemma {:induction false} TotalSplit(a: seq<Egroup>, b: seq<Egroup>)
    ensures Total(a + b) == Total(a) + Total(b)
    decreases |b|
  {
    if b == [] {
      assert a + b == a;
    } else {
      assert (a + b)[..|a + b| - 1] == a + b[..|b| - 1];
      TotalSplit(a, b[..|b| - 1]);
    }
  }

  lemma {:induction false} QualifiedSplit(a: seq<Egroup>, b: seq<Egroup>, cutline: int)
    ensures Qualified(a + b, cutline) == Qualified(a, cutline) + Qualified(b, cutline)
    decreases |b|
  {
    if b == [] {
      assert a + b == a;
    } else {
      assert (a + b)[..|a + b| - 1] == a + b[..|b| - 1];
      QualifiedSplit(a, b[..|b| - 1], cutline);
    }
  }

  // ----- Sorting

  function Insert(o: Order, s: seq<Egroup>, x: Egroup): seq<Egroup> {
    if s == [] || Better(o, x, s[0]) then [x] + s else [s[0]] + Insert(o, s[1..], x)
  }

  lemma {:induction false} InsertSorts(o: Order, s: seq<Egroup>, x: Egroup)
    requires Sorted(o, s)
    ensures Sorted(o, Insert(o, s, x)) && multiset(Insert(o, s, x)) == multiset(s) + multiset{x}
  {
    InsertAdds(o, s, x);
    if s != [] && !Better(o, x, s[0]) {
      InsertSorts(o, s[1..], x);
      var rest := Insert(o, s[1..], x);
      forall j | 0 <= j < |rest|
        ensures !Better(o, rest[j], s[0])
      {
        assert rest[j] in multiset(rest);
        assert rest[j] == x || rest[j] in multiset(s[1..]);
      }
    }
  }

  lemma {:induction false} InsertAdds(o: Order, s: seq<Egroup>, x: Egroup)
    ensures multiset(Insert(o, s, x)) == multiset(s) + multiset{x}
  {
    if s != [] && !Better(o, x, s[0]) {
      InsertAdds(o, s[1..], x);
      assert s == [s[0]] + s[1..];
    }
  }

  /** std::sort; the order of equals is not specified. */
  method Sort(o: Order, s: seq<Egroup>) returns (r: seq<Egroup>)
    ensures Sorted(o, r) && multiset(r) == multiset(s)
  {
    r := [];
    for i := 0 to |s|
      invariant Sorted(o, r) && multiset(r) == multiset(s[..i])
    {
      InsertSorts(o, r, s[i]);
      r := Insert(o, r, s[i]);
      assert s[..i + 1] == s[..i] + [s[i]];
    }
    assert s[..|s|] == s;
  }

  // ----- The sums do not depend on the order

  lemma {:induction false} PermutedSums(a: seq<Egroup>, b: seq<Egroup>, cutline: int)
    requires multiset(a) == multiset(b)
    ensures Total(a) == Total(b) && Qualified(a, cutline) == Qualified(b, cutline)
    decreases |a|
  {
    if a == [] {
      assert |multiset(b)| == 0;
    } else {
      var l := |a| - 1;
      assert a[l] in multiset(a);
      var i := PlaceOf(a[l], b);
      WithoutSame(a, b, i);
      PermutedSums(a[..l], b[..i] + b[i + 1..], cutline);
      SumsMove(b[..i], b[i], b[i + 1..], cutline);
      assert b == b[..i] + ([b[i]] + b[i + 1..]);
    }
  }

  lemma PlaceOf(x: Egroup, b: seq<Egroup>) returns (i: nat)
    requires x in multiset(b)
    ensures i < |b| && b[i] == x
  {
    i :| i < |b| && b[i] == x;
  }

  lemma WithoutSame(a: seq<Egroup>, b: seq<Egroup>, i: nat)
    requires multiset(a) == multiset(b) && a != [] && i < |b| && b[i] == a[|a| - 1]
    ensures multiset(a[..|a| - 1]) == multiset(b[..i] + b[i + 1..])
  {
    var l := |a| - 1;
    WithoutOne(a, l);
    WithoutOne(b, i);
    assert a[..l] + a[l + 1..] == a[..l];
  }

  lemma WithoutOne(s: seq<Egroup>, i: nat)
    requires i < |s|
    ensures multiset(s[..i] + s[i + 1..]) == multiset(s) - multiset{s[i]}
  {
    assert s == s[..i] + [s[i]] + s[i + 1..];
  }

  lemma SumsMove(a: seq<Egroup>, x: Egroup, b: seq<Egroup>, cutline: int)
    ensures Total(a + ([x] + b)) == Total(a + b) + x.count
    ensures Qualified(a + ([x] + b), cutline) == Qualified(a + b, cutline) + if x.score > cutline then x.count else 0
  {
    TotalSplit(a, [x] + b);
    TotalSplit([x], b);
    TotalSplit(a, b);
    QualifiedSplit(a, [x] + b, cutline);
    QualifiedSplit([x], b, cutline);
    QualifiedSplit(a, b, cutline);
    assert [x][..0] == [];
    assert Total([x]) == Total([x][..0]) + x.count;
    assert Qualified([x], cutline) == Qualified([x][..0], cutline) + if x.score > cutline then x.count else 0;
  }

  // ----- The selection

  function Needs(s: seq<Egroup>): nat {
    if s == [] then 0 else Needs(s[..|s| - 1]) + s[|s| - 1].needs
  }

  /** `t` is the sorted `s` with the first `i` groups used up, in order, for `k` units. */
  ghost predicate Selection(s: seq<Egroup>, t: seq<Egroup>, i: nat, k: nat) {
    && |t| == |s| && 0 < i <= |s|
    && (forall j :: 0 <= j < i ==> t[j] == s[j].(needs := t[j].needs) && t[j].needs <= t[j].count)
    && (forall j :: 0 <= j < i - 1 ==> t[j].needs == t[j].count)
    && (forall j :: i <= j < |s| ==> t[j] == s[j])
    && Needs(t[..i]) == k
    && Total(s[..i - 1]) < k
  }

  /** The loop of choose_best_k. */
  method Select(s: seq<Egroup>, k: nat) returns (t: seq<Egroup>, i: nat)
    requires 0 < k <= Total(s)
    ensures Selection(s, t, i, k)
  {
    t, i := s, 0;
    var left: int := k;
    while left > 0
      invariant left > 0 ==> Filled(s, t, i) && left == k - Total(s[..i])
      invariant left <= 0 ==> Selection(s, t, i, k)
      decreases left > 0, |s| - i
    {
      assert s[..|s|] == s;
      var n := if left <= t[i].count then left else t[i].count;
      SelectStep(s, t, i, k, n);
      t := t[i := t[i].(needs := n)];
      left := left - t[i].count;
      i := i + 1;
    }
  }

  /** The first `i` groups are used up completely. */
  ghost predicate Filled(s: seq<Egroup>, t: seq<Egroup>, i: nat) {
    && |t| == |s| && i <= |s|
    && (forall j :: 0 <= j < i ==> t[j] == s[j].(needs := s[j].count))
    && (forall j :: i <= j < |s| ==> t[j] == s[j])
    && Needs(t[..i]) == Total(s[..i])
  }

  lemma SelectStep(s: seq<Egroup>, t: seq<Egroup>, i: nat, k: nat, n: nat)
    requires Filled(s, t, i) && i < |s| && Total(s[..i]) < k
    requires n == if k - Total(s[..i]) <= s[i].count then k - Total(s[..i]) else s[i].count
    ensures var t' := t[i := t[i].(needs := n)];
            && Total(s[..i + 1]) == Total(s[..i]) + s[i].count
            && if Total(s[..i + 1]) < k then Filled(s, t', i + 1) else Selection(s, t', i + 1, k)
  {
    var t' := t[i := t[i].(needs := n)];
    assert t'[..i + 1][..i] == t[..i];
    assert s[..i + 1][..i] == s[..i];
    assert Needs(t'[..i + 1]) == Needs(t[..i]) + n;
  }

  class Evals {
    const rtype: string
    var egroups: seq<Egroup>
    var cutline: int
    var qualCount: nat
    var totalCount: nat
    var bestK: nat
    var bestI: nat

    constructor (cutline: int, rtype: string)
      ensures this.rtype == rtype && this.cutline == cutline && egroups == [] && bestK == 0 && Counted() && Uncut()
    {
      this.rtype, this.cutline := rtype, cutline;
      egroups, qualCount, totalCount, bestK, bestI := [], 0, 0, 0, 0;
    }

    /** What adding, merging, choosing and changing the cutline keep. */
    ghost predicate Counted()
      reads this
    {
      totalCount == Total(egroups) && qualCount <= totalCount
    }

    /** Holds as long as the cutline has not changed after groups were added. */
    ghost predicate Uncut()
      reads this
    {
      qualCount == Qualified(egroups, cutline)
    }

    method Add(eg: Egroup) returns (r: nat)
      requires Counted()
      modifies this
      ensures Counted() && egroups == old(egroups) + [eg] && cutline == old(cutline) && r == qualCount
      ensures old(Uncut()) ==> Uncut()
    {
      totalCount := totalCount + eg.count;
      if eg.score > cutline {
        qualCount := qualCount + eg.count;
      }
      egroups := egroups + [eg];
      assert egroups[..|egroups| - 1] == old(egroups);
      r := qualCount;
    }

    method Merge(o: Evals) returns (rc: int)
      requires Counted() && o.Counted()
      modifies this
      ensures Counted() && cutline == old(cutline)
      ensures rc == 0 <==> old(cutline) == old(o.cutline) && rtype == o.rtype
      ensures egroups == if rc == 0 then old(egroups) + old(o.egroups) else old(egroups)
      ensures rc != 0 ==> qualCount == old(qualCount) && totalCount == old(totalCount)
      ensures rc == 0 && old(Uncut()) && old(o.Uncut()) ==> Uncut()
    {
      if cutline != o.cutline || rtype != o.rtype {
        return -1;
      }
      TotalSplit(egroups, o.egroups);
      QualifiedSplit(egroups, o.egroups, cutline);
      qualCount, totalCount, egroups := qualCount + o.qualCount, totalCount + o.totalCount, egroups + o.egroups;
      rc := 0;
    }

    method SetCutline(c: int) returns (was: int)
      requires Counted()
      modifies `cutline
      ensures Counted() && cutline == c && was == old(cutline)
    {
      was := cutline;
      cutline := c;
    }

    /** choose_best_k: None is the error return. */
    method ChooseBestK(k: nat, o: Order) returns (r: Option<nat>, ghost sorted: seq<Egroup>)
      requires Counted()
      modifies this
      ensures Counted() && cutline == old(cutline) && (old(Uncut()) ==> Uncut())
      ensures r == if 0 < k <= old(qualCount) then Some(old(bestK)) else None
      ensures r.None? ==> unchanged(this)
      ensures r.Some? ==> bestK == k && Sorted(o, sorted) && multiset(sorted) == multiset(old(egroups))
      ensures r.Some? ==> Selection(sorted, egroups, bestI, k)
      ensures r.Some? && o == Descending ==>
                ((forall i :: 0 <= i < bestI ==> egroups[i].score > cutline) <==> k <= Qualified(old(egroups), cutline))
    {
      sorted := [];
      if k == 0 || k > qualCount {
        return None, [];
      }
      var s := Sort(o, egroups);
      sorted := s;
      PermutedSums(egroups, s, cutline);
      var t, i := Select(s, k);
      SelectionSums(s, t, i, k, cutline);
      if o == Descending {
        AboveCutline(s, t, i, k, cutline);
      }
      r := Some(bestK);
      egroups, bestK, bestI := t, k, i;
    }
  }

  /** A cutline raised after the groups were added does not change how many units count as qualified: a group below
      the new cutline is still chosen. */
  method LateCutline(score: int, cutline: int) returns (chosen: seq<Egroup>)
    requires score > 0
    ensures |chosen| == 1 && chosen[0].score == score && chosen[0].needs == 1
  {
    var e := new Evals(0, "core");
    var qualified := e.Add(Egroup(score, 1, 0, 0, false));
    assert e.egroups == [Egroup(score, 1, 0, 0, false)] && e.egroups[..0] == [];
    var was := e.SetCutline(cutline);
    var r, sorted := e.ChooseBestK(1, Descending);
    OneGroup(sorted, e.egroups, e.bestI, Egroup(score, 1, 0, 0, false));
    chosen := e.egroups[..e.bestI];
  }

  lemma OneGroup(s: seq<Egroup>, t: seq<Egroup>, i: nat, eg: Egroup)
    requires multiset(s) == multiset{eg} && Selection(s, t, i, 1)
    ensures i == 1 && t == [eg.(needs := 1)]
  {
    assert |s| == |multiset(s)| == 1;
    assert s[0] in multiset(s);
    assert Needs(t[..1]) == Needs([]) + t[0].needs by {
      assert t[..1][..0] == [];
    }
    assert t[0] == eg.(needs := 1) && t == [t[0]];
  }

  /** Choosing does not change the counts. */
  lemma SelectionSums(s: seq<Egroup>, t: seq<Egroup>, i: nat, k: nat, cutline: int)
    requires Selection(s, t, i, k)
    ensures Total(t) == Total(s) && Qualified(t, cutline) == Qualified(s, cutline)
  {
    SameScores(s, t, cutline);
  }

  lemma {:induction false} SameScores(s: seq<Egroup>, t: seq<Egroup>, cutline: int)
    requires |s| == |t| && forall j :: 0 <= j < |s| ==> s[j].score == t[j].score && s[j].count == t[j].count
    ensures Total(t) == Total(s) && Qualified(t, cutline) == Qualified(s, cutline)
  {
    if s != [] {
      SameScores(s[..|s| - 1], t[..|t| - 1], cutline);
    }
  }

  /** In descending order nothing at or below the cutline is selected if and only if enough units are above it. */
  lemma AboveCutline(s: seq<Egroup>, t: seq<Egroup>, i: nat, k: nat, cutline: int)
    requires Sorted(Descending, s) && Selection(s, t, i, k)
    ensures (forall j :: 0 <= j < i ==> t[j].score > cutline) <==> k <= Qualified(s, cutline)
  {
    if k <= Qualified(s, cutline) {
      NoneBelow(s, t, i, k, cutline);
    } else if forall j :: 0 <= j < i ==> t[j].score > cutline {
      EnoughAbove(s, t, i, k, cutline);
    }
  }

  lemma NoneBelow(s: seq<Egroup>, t: seq<Egroup>, i: nat, k: nat, cutline: int)
    requires Sorted(Descending, s) && Selection(s, t, i, k) && k <= Qualified(s, cutline)
    ensures forall j :: 0 <= j < i ==> t[j].score > cutline
  {
    forall j | 0 <= j < i
      ensures t[j].score > cutline
    {
      if s[j].score <= cutline {
        QualifiedBefore(s, j, cutline);
        TotalGrows(s, j, i - 1);
      }
    }
  }

  lemma EnoughAbove(s: seq<Egroup>, t: seq<Egroup>, i: nat, k: nat, cutline: int)
    requires Selection(s, t, i, k) && forall j :: 0 <= j < i ==> t[j].score > cutline
    ensures k <= Qualified(s, cutline)
  {
    assert s == s[..i] + s[i..];
    QualifiedSplit(s[..i], s[i..], cutline);
    AllQualified(t[..i], cutline);
    SameScores(s[..i], t[..i], cutline);
  }

  lemma {:induction false} AllQualified(t: seq<Egroup>, cutline: int)
    requires forall j :: 0 <= j < |t| ==> t[j].score > cutline && t[j].needs <= t[j].count
    ensures Needs(t) <= Qualified(t, cutline)
  {
    if t != [] {
      AllQualified(t[..|t| - 1], cutline);
    }
  }

  lemma QualifiedBefore(s: seq<Egroup>, j: nat, cutline: int)
    requires Sorted(Descending, s) && j < |s| && s[j].score <= cutline
    ensures Qualified(s, cutline) <= Total(s[..j])
  {
    var a, b := s[..j], s[j..];
    assert s == a + b;
    QualifiedSplit(a, b, cutline);
    forall m | 0 <= m < |b|
      ensures b[m].score <= cutline
    {
      assert b[m] == s[j + m];
      assert m > 0 ==> !Better(Descending, s[j + m], s[j]);
    }
    NoneQualified(b, cutline);
    QualifiedAtMost(a, cutline);
  }

  lemma {:induction false} NoneQualified(s: seq<Egroup>, cutline: int)
    requires forall m :: 0 <= m < |s| ==> s[m].score <= cutline
    ensures Qualified(s, cutline) == 0
  {
    if s != [] {
      NoneQualified(s[..|s| - 1], cutline);
    }
  }

  lemma {:induction false} QualifiedAtMost(s: seq<Egroup>, cutline: int)
    ensures Qualified(s, cutline) <= Total(s)
  {
    if s != [] {
      QualifiedAtMost(s[..|s| - 1], cutline);
    }
  }

  lemma TotalGrows(s: seq<Egroup>, i: nat, j: nat)
    requires i <= j <= |s|
    ensures Total(s[..i]) <= Total(s[..j])
  {
    assert s[..j] == s[..i] + s[i..j];
    TotalSplit(s[..i], s[i..j]);
  }

  /** No unit left out is better than a unit selected. */
  lemma NoneLeftOutIsBetter(o: Order, s: seq<Egroup>, t: seq<Egroup>, i: nat, k: nat, a: nat, b: nat)
    requires Sorted(o, s) && Selection(s, t, i, k)
    requires a < i && b < |t| && (b >= i || t[b].needs < t[b].count)
    ensures !Better(o, t[b], t[a])
  {
    assert b >= i - 1;
    if a < b {
      assert !Better(o, s[b], s[a]);
    }
  }

  // ----- The selected units have the greatest total score

  /** The total score of `n[j]` units of each group. */
  function Worth(s: seq<Egroup>, n: seq<nat>): int
    requires |n| == |s|
  {
    if s == [] then 0 else Worth(s[..|s| - 1], n[..|s| - 1]) + n[|s| - 1] * s[|s| - 1].score
  }

  function Sum(n: seq<nat>): nat {
    if n == [] then 0 else Sum(n[..|n| - 1]) + n[|n| - 1]
  }

  /** What the selection takes of each group. */
  function Taken(t: seq<Egroup>, i: nat): seq<nat> {
    seq(|t|, j requires 0 <= j < |t| => if j < i then t[j].needs else 0)
  }

  lemma MulOrdered(a: int, b: int, d: int)
    requires (a >= b && d >= 0) || (a <= b && d <= 0)
    ensures a * d >= b * d
  {
    assert (a - b) * d >= 0;
    assert (a - b) * d == a * d - b * d;
  }

  /** Group by group, taking `m` rather than `n` gains as measured from a threshold between the two. */
  lemma {:induction false} GainsMore(s: seq<Egroup>, m: seq<nat>, n: seq<nat>, threshold: int)
    requires |m| == |n| == |s|
    requires forall j :: 0 <= j < |s| ==>
      (m[j] >= n[j] && s[j].score >= threshold) || (m[j] <= n[j] && s[j].score <= threshold)
    ensures Worth(s, m) - threshold * Sum(m) >= Worth(s, n) - threshold * Sum(n)
  {
    if s != [] {
      var l := |s| - 1;
      GainsMore(s[..l], m[..l], n[..l], threshold);
      MulOrdered(m[l], n[l], s[l].score - threshold);
      Spread(m[l], s[l].score, threshold, Sum(m[..l]));
      Spread(n[l], s[l].score, threshold, Sum(n[..l]));
    }
  }

  lemma Spread(m: int, score: int, threshold: int, sum: int)
    ensures m * score - threshold * (sum + m) == m * (score - threshold) - threshold * sum
  {}

  lemma {:induction false} SumTaken(t: seq<Egroup>, i: nat)
    requires i <= |t|
    ensures Sum(Taken(t, i)) == Needs(t[..i])
  {
    if t != [] {
      var l := |t| - 1;
      var n := Taken(t, i);
      if i <= l {
        SumTaken(t[..l], i);
        assert n[..l] == Taken(t[..l], i);
        assert t[..l][..i] == t[..i];
      } else {
        SumTaken(t[..l], l);
        assert n[..l] == Taken(t[..l], l);
        assert t[..i][..l] == t[..l] == t[..l][..l];
      }
    }
  }

  /** Among all ways to take k units, none scores more in total than the one choose_best_k takes. */
  lemma BestKIsOptimal(s: seq<Egroup>, t: seq<Egroup>, i: nat, k: nat, n: seq<nat>)
    requires Sorted(Descending, s) && Selection(s, t, i, k)
    requires |n| == |t| && Sum(n) == k && forall j :: 0 <= j < |n| ==> n[j] <= t[j].count
    ensures Worth(t, n) <= Worth(t, Taken(t, i))
  {
    var m := Taken(t, i);
    var threshold := t[i - 1].score;
    SumTaken(t, i);
    forall j | 0 <= j < |t|
      ensures (m[j] >= n[j] && t[j].score >= threshold) || (m[j] <= n[j] && t[j].score <= threshold)
    {
      if j < i - 1 {
        assert !Better(Descending, s[i - 1], s[j]);
      } else if j > i - 1 {
        assert !Better(Descending, s[j], s[i - 1]);
      }
    }
    GainsMore(t, m, n, threshold);
  }
}
