/**
 * Renumbering the ranks of a nested instance:
 * resource/readers/resource_namespace_remapper.cpp, driven by
 * remap_jgf_namespace of resource/modules/resource_match.cpp.
 */
module RankRemap {
  import opened Common

  /** distinct_range_t: two ranges that overlap count as the same key. */
  datatype RangeData = Range(low: nat, high: nat)

  /** The constructor refuses a range whose ends are the wrong way round. */
  type Range = r: RangeData | r.low <= r.high witness Range(0, 0)

  datatype Keyed<+V> = Keyed(range: Range, value: V)

  /** Names of a range: for each name type, reference ids and what they are remapped to. */
  type Names = map<string, map<nat, nat>>

  const EXEC_TARGET: string := "exec-target"
  const CORE: string := "core"

  // ----- std::map with ranges as keys, in ascending order

  /** The invariant of such a map: the keys are pairwise disjoint and ascending. */
  ghost predicate Ascending<V>(s: seq<Keyed<V>>) {
    forall i, j {:trigger Below(s, i, j)} :: 0 <= i < j < |s| ==> Below(s, i, j)
  }

  ghost predicate Below<V>(s: seq<Keyed<V>>, i: nat, j: nat)
    requires i < |s| && j < |s|
  {
    s[i].range.high < s[j].range.low
  }

  /** The first key that is not entirely below the range. */
  function LowerBound<V>(s: seq<Keyed<V>>, r: Range): (k: nat)
    ensures k <= |s|
    ensures forall i :: 0 <= i < k ==> s[i].range.high < r.low
    ensures k < |s| ==> r.low <= s[k].range.high
  {
    if s == [] || r.low <= s[0].range.high then 0 else 1 + LowerBound(s[1..], r)
  }

  /** std::map::find: the first key that overlaps the range. */
  function Find<V>(s: seq<Keyed<V>>, r: Range): (k: Option<nat>)
    ensures k.Some? ==> k.value < |s|
  {
    var k := LowerBound(s, r);
    if k < |s| && s[k].range.low <= r.high then Some(k) else None
  }

  function Put<V>(s: seq<Keyed<V>>, r: Range, v: V): seq<Keyed<V>> {
    var k := LowerBound(s, r);
    s[..k] + [Keyed(r, v)] + s[k..]
  }

  /** Overlap as equality finds the one key that contains a point. */
  lemma FindIsUnique<V>(s: seq<Keyed<V>>, x: nat, k: nat)
    requires Ascending(s) && k < |s|
    ensures Find(s, Range(x, x)) == Some(k) <==> s[k].range.low <= x <= s[k].range.high
  {
    var b := LowerBound(s, Range(x, x));
    if b < k {
      assert Below(s, b, k);
    } else if k < b && b < |s| {
      assert Below(s, k, b);
    }
  }

  lemma FindNothing<V>(s: seq<Keyed<V>>, x: nat)
    requires forall k :: 0 <= k < |s| ==> !(s[k].range.low <= x <= s[k].range.high)
    ensures Find(s, Range(x, x)) == None
  {}

  /** A range that no key overlaps can be added: the keys stay disjoint. */
  lemma PutAscending<V>(s: seq<Keyed<V>>, r: Range, v: V)
    requires Ascending(s) && Find(s, r).None?
    ensures Ascending(Put(s, r, v))
  {
    var k := LowerBound(s, r);
    var t := Put(s, r, v);
    assert t[k].range == r;
    forall i, j | 0 <= i < j < |t|
      ensures Below(t, i, j)
    {
      var i', j' := if i <= k then i else i - 1, if j <= k then j else j - 1;
      assert i' < j' && j' < |s| ==> Below(s, i', j');
      assert k < j' < |s| ==> Below(s, k, j');
    }
  }

  /** unpack_resobj: the ranges of an R_lite with their cores; None if two of them overlap. */
  method UnpackResobj(list: seq<Keyed<seq<nat>>>) returns (out: Option<seq<Keyed<seq<nat>>>>)
    ensures out.Some? ==> Ascending(out.value) && multiset(out.value) == multiset(list)
    ensures out.None? ==> exists i, j :: 0 <= i < j < |list| && Overlap(list[i].range, list[j].range)
  {
    var s: seq<Keyed<seq<nat>>> := [];
    for i := 0 to |list|
      invariant Ascending(s) && multiset(s) == multiset(list[..i])
    {
      var r := list[i].range;
      var k := Find(s, r);
      if k.Some? {
        assert s[k.value] in multiset(s);
        var j :| 0 <= j < i && list[..i][j] == s[k.value];
        assert Overlap(list[j].range, list[i].range);
        return None;
      }
      PutAscending(s, r, list[i].value);
      PutElements(s, list[i]);
      s := Put(s, r, list[i].value);
      assert list[..i + 1] == list[..i] + [list[i]];
    }
    assert list[..|list|] == list;
    out := Some(s);
  }

  predicate Overlap(a: Range, b: Range) {
    a.low <= b.high && b.low <= a.high
  }

  lemma PutElements<V>(s: seq<Keyed<V>>, x: Keyed<V>)
    ensures multiset(Put(s, x.range, x.value)) == multiset(s) + multiset{x}
  {
    var k := LowerBound(s, x.range);
    assert s == s[..k] + s[k..];
  }

  // ----- The remapper

  function Query(m: seq<Keyed<Names>>, target: nat, name: string, ref: nat): Option<nat> {
    var k := Find(m, Range(target, target));
    if k.None? then None
    else
      var names := m[k.value].value;
      if name in names && ref in names[name] then Some(names[name][ref]) else None
  }

  function QueryExecTarget(m: seq<Keyed<Names>>, target: nat): Option<nat> {
    Query(m, target, EXEC_TARGET, target)
  }

  function Named(names: Names, name: string, ref: nat, id: nat): Option<Names> {
    var ids := if name in names then names[name] else map[];
    if ref in ids then None else Some(names[name := ids[ref := id]])
  }

  /** add: None if the range overlaps a different key or the reference id is taken. */
  function Added(m: seq<Keyed<Names>>, r: Range, name: string, ref: nat, id: nat): Option<seq<Keyed<Names>>> {
    match Find(m, r)
    case None => Some(Put<Names>(m, r, map[name := map[ref := id]]))
    case Some(k) =>
      if m[k].range != r then None
      else
        match Named(m[k].value, name, ref, id)
        case None => None
        case Some(names) => Some(m[k := Keyed(r, names)])
  }

  /** Whatever is added, the keys stay disjoint. */
  lemma AddedAscending(m: seq<Keyed<Names>>, r: Range, name: string, ref: nat, id: nat)
    requires Ascending(m) && Added(m, r, name, ref, id).Some?
    ensures Ascending(Added(m, r, name, ref, id).value)
  {
    match Find(m, r)
    case None => PutAscending<Names>(m, r, map[name := map[ref := id]]);
    case Some(k) => ReplaceAscending(m, k, Added(m, r, name, ref, id).value[k]);
  }

  lemma ReplaceAscending(m: seq<Keyed<Names>>, k: nat, e: Keyed<Names>)
    requires Ascending(m) && k < |m| && e.range == m[k].range
    ensures Ascending(m[k := e])
  {
    var t := m[k := e];
    forall i, j | 0 <= i < j < |m|
      ensures Below(t, i, j)
    {
      assert Below(m, i, j);
    }
  }

  /** Adding the first n of several reference ids of one range, in order. */
  function AddedAll(m: seq<Keyed<Names>>, r: Range, name: string, refs: seq<nat>, ids: seq<nat>, n: nat): Option<seq<Keyed<Names>>>
    requires n <= |refs| && n <= |ids|
  {
    if n == 0 then Some(m)
    else
      match AddedAll(m, r, name, refs, ids, n - 1)
      case None => None
      case Some(t) => Added(t, r, name, refs[n - 1], ids[n - 1])
  }

  /** Adding the first n references makes `m` into `t`, None standing for a refusal. */
  ghost predicate AddsTo(m: seq<Keyed<Names>>, r: Range, name: string, refs: seq<nat>, ids: seq<nat>, n: nat,
                         t: Option<seq<Keyed<Names>>>)
    requires n <= |refs| && n <= |ids|
  {
    forall k {:trigger AddsNth(m, r, name, refs, ids, k, t)} :: k == n ==> AddsNth(m, r, name, refs, ids, k, t)
  }

  ghost predicate AddsNth(m: seq<Keyed<Names>>, r: Range, name: string, refs: seq<nat>, ids: seq<nat>, n: nat,
                          t: Option<seq<Keyed<Names>>>)
    requires n <= |refs| && n <= |ids|
  {
    AddedAll(m, r, name, refs, ids, n) == t
  }

  lemma AddsNothing(m: seq<Keyed<Names>>, r: Range, name: string, refs: seq<nat>, ids: seq<nat>)
    ensures AddsTo(m, r, name, refs, ids, 0, Some(m))
  {
    assert AddsNth(m, r, name, refs, ids, 0, Some(m));
  }

  /** One more reference id: if it cannot be added, neither can all. */
  lemma AddedStep(m: seq<Keyed<Names>>, r: Range, name: string, refs: seq<nat>, ids: seq<nat>, k: nat, n: nat,
                  t: seq<Keyed<Names>>)
    requires k < n <= |refs| && n <= |ids| && AddsTo(m, r, name, refs, ids, k, Some(t))
    ensures AddsTo(m, r, name, refs, ids, k + 1, Added(t, r, name, refs[k], ids[k]))
    ensures Added(t, r, name, refs[k], ids[k]).None? ==> AddsTo(m, r, name, refs, ids, n, None)
  {
    var next := Added(t, r, name, refs[k], ids[k]);
    assert AddsNth(m, r, name, refs, ids, k, Some(t));
    assert AddsNth(m, r, name, refs, ids, k + 1, next);
    if next.None? {
      AddedNoneStays(m, r, name, refs, ids, k + 1, n);
      assert AddsNth(m, r, name, refs, ids, n, None);
    }
  }

  /** What adding has made of the names of a range. */
  ghost predicate Extended(names: Names, after: Names, name: string, refs: seq<nat>, ids: seq<nat>, n: nat)
    requires n <= |refs| && n <= |ids|
  {
    && (forall x :: x in names && x != name ==> x in after && after[x] == names[x])
    && (forall j :: 0 <= j < n ==> Maps(after, name, refs[j], ids[j]))
    && after.Keys <= names.Keys + {name}
    && forall ref :: ref in Ids(after, name) <==> ref in Ids(names, name) || ref in refs[..n]
  }

  /** The reference ids of a name type. */
  function Ids(names: Names, name: string): set<nat> {
    if name in names then names[name].Keys else {}
  }

  /** The first n references are new, and each is there once. */
  ghost predicate NewRefs(ids: set<nat>, refs: seq<nat>, n: nat)
    requires n <= |refs|
  {
    && (forall j :: 0 <= j < n ==> refs[j] !in ids)
    && forall i, j :: 0 <= i < j < n ==> refs[i] != refs[j]
  }

  /** `r` is the one key of `t` after those of `m`, which are below it. */
  ghost predicate LastIs(t: seq<Keyed<Names>>, m: seq<Keyed<Names>>, r: Range) {
    && |t| == |m| + 1 && t[..|m|] == m && t[|m|].range == r
    && forall i :: 0 <= i < |m| ==> m[i].range.high < r.low
  }

  lemma AddedLast(t: seq<Keyed<Names>>, m: seq<Keyed<Names>>, r: Range, name: string, ref: nat, id: nat)
    requires LastIs(t, m, r)
    ensures Added(t, r, name, ref, id) ==
            match Named(t[|m|].value, name, ref, id) case None => None case Some(names) => Some(m + [Keyed(r, names)])
  {
    forall i | 0 <= i < |m|
      ensures t[i].range.high < r.low
    {
      assert t[i] == t[..|m|][i];
    }
    assert Find(t, r) == Some(|m|);
    assert forall e :: t[|m| := e] == m + [e];
  }

  lemma ExtendStep(names: Names, mid: Names, after: Names, name: string, refs: seq<nat>, ids: seq<nat>, n: nat)
    requires 0 < n <= |refs| && n <= |ids| && Extended(names, mid, name, refs, ids, n - 1)
    requires Named(mid, name, refs[n - 1], ids[n - 1]) == Some(after)
    ensures Extended(names, after, name, refs, ids, n)
  {
    assert Ids(after, name) == Ids(mid, name) + {refs[n - 1]};
    assert refs[..n] == refs[..n - 1] + [refs[n - 1]];
    forall j | 0 <= j < n
      ensures Maps(after, name, refs[j], ids[j])
    {
      assert j < n - 1 ==> Maps(mid, name, refs[j], ids[j]);
    }
  }

  /** Adding to the last key leaves every other key alone. */
  lemma {:induction false} AddedToLast(t: seq<Keyed<Names>>, m: seq<Keyed<Names>>, r: Range, name: string,
                                       refs: seq<nat>, ids: seq<nat>, n: nat)
    requires LastIs(t, m, r)
    requires n <= |refs| && n <= |ids| && AddedAll(t, r, name, refs, ids, n).Some?
    ensures var u := AddedAll(t, r, name, refs, ids, n).value;
            LastIs(u, m, r) && Extended(t[|m|].value, u[|m|].value, name, refs, ids, n)
  {
    if n > 0 {
      AddedToLast(t, m, r, name, refs, ids, n - 1);
      var mid := AddedAll(t, r, name, refs, ids, n - 1).value;
      AddedLast(mid, m, r, name, refs[n - 1], ids[n - 1]);
      var names := Named(mid[|m|].value, name, refs[n - 1], ids[n - 1]).value;
      ExtendStep(t[|m|].value, mid[|m|].value, names, name, refs, ids, n);
    }
  }

  /** The same for a range above every key: it becomes the last key. */
  lemma {:induction false} AddedAbove(m: seq<Keyed<Names>>, r: Range, name: string, refs: seq<nat>, ids: seq<nat>, n: nat)
    requires forall i :: 0 <= i < |m| ==> m[i].range.high < r.low
    requires 0 < n <= |refs| && n <= |ids| && AddedAll(m, r, name, refs, ids, n).Some?
    ensures var u := AddedAll(m, r, name, refs, ids, n).value;
            LastIs(u, m, r) && Extended(map[], u[|m|].value, name, refs, ids, n)
  {
    if n == 1 {
      assert AddedAll(m, r, name, refs, ids, 0) == Some(m);
      AddedFirst(m, r, name, refs[0], ids[0]);
    } else {
      AddedAbove(m, r, name, refs, ids, n - 1);
      var mid := AddedAll(m, r, name, refs, ids, n - 1).value;
      AddedLast(mid, m, r, name, refs[n - 1], ids[n - 1]);
      var names := Named(mid[|m|].value, name, refs[n - 1], ids[n - 1]).value;
      ExtendStep(map[], mid[|m|].value, names, name, refs, ids, n);
    }
  }

  /** Adding to the last key succeeds exactly when every reference id is new. */
  lemma {:induction false} AddedToLastExactly(t: seq<Keyed<Names>>, m: seq<Keyed<Names>>, r: Range, name: string,
                                              refs: seq<nat>, ids: seq<nat>, n: nat)
    requires LastIs(t, m, r) && n <= |refs| && n <= |ids|
    ensures AddedAll(t, r, name, refs, ids, n).Some? <==> NewRefs(Ids(t[|m|].value, name), refs, n)
  {
    if n > 0 {
      var l, base := n - 1, Ids(t[|m|].value, name);
      AddedToLastExactly(t, m, r, name, refs, ids, l);
      NewRefsStep(base, refs, l);
      if NewRefs(base, refs, l) {
        AddedToLast(t, m, r, name, refs, ids, l);
        AddedIfNew(AddedAll(t, r, name, refs, ids, l).value, m, r, name, refs[l], ids[l]);
      }
    }
  }

  lemma NewRefsStep(ids: set<nat>, refs: seq<nat>, l: nat)
    requires l < |refs|
    ensures NewRefs(ids, refs, l + 1) <==> NewRefs(ids, refs, l) && refs[l] !in ids && refs[l] !in refs[..l]
  {
    assert forall i :: 0 <= i < l ==> refs[..l][i] == refs[i];
  }

  lemma AddedIfNew(t: seq<Keyed<Names>>, m: seq<Keyed<Names>>, r: Range, name: string, ref: nat, id: nat)
    requires LastIs(t, m, r)
    ensures Added(t, r, name, ref, id).Some? <==> ref !in Ids(t[|m|].value, name)
  {
    AddedLast(t, m, r, name, ref, id);
  }

  /** A range above every key takes all its ranks. */
  lemma RangeFits(m: seq<Keyed<Names>>, r: Range, start: nat)
    requires forall i :: 0 <= i < |m| ==> m[i].range.high < r.low
    ensures WithRange(m, r, start).Some?
  {
    var n := r.high - r.low + 1;
    RanksFit(m, r, r.low, start, n, n);
  }

  lemma {:induction false} RanksFit(m: seq<Keyed<Names>>, r: Range, low: nat, start: nat, n: nat, k: nat)
    requires (forall i :: 0 <= i < |m| ==> m[i].range.high < r.low) && k <= n
    ensures AddedAll(m, r, EXEC_TARGET, Upto(low, n), Upto(start, n), k).Some?
    decreases k
  {
    var refs, ids := Upto(low, n), Upto(start, n);
    if k == 1 {
      assert AddedAll(m, r, EXEC_TARGET, refs, ids, 0) == Some(m);
      AddedFirst(m, r, EXEC_TARGET, refs[0], ids[0]);
    } else if k > 1 {
      var l := k - 1;
      RanksFit(m, r, low, start, n, l);
      AddedAbove(m, r, EXEC_TARGET, refs, ids, l);
      var mid := AddedAll(m, r, EXEC_TARGET, refs, ids, l).value;
      AddedIfNew(mid, m, r, EXEC_TARGET, refs[l], ids[l]);
      assert forall i :: 0 <= i < l ==> refs[..l][i] != refs[l];
    }
  }

  lemma {:induction false} AddedNoneStays(m: seq<Keyed<Names>>, r: Range, name: string, refs: seq<nat>, ids: seq<nat>,
                                          n: nat, k: nat)
    requires n <= k <= |refs| && k <= |ids| && AddedAll(m, r, name, refs, ids, n) == None
    ensures AddedAll(m, r, name, refs, ids, k) == None
    decreases k
  {
    if n < k {
      AddedNoneStays(m, r, name, refs, ids, n, k - 1);
    }
  }

  lemma AddedFirst(m: seq<Keyed<Names>>, r: Range, name: string, ref: nat, id: nat)
    requires forall i :: 0 <= i < |m| ==> m[i].range.high < r.low
    ensures Added(m, r, name, ref, id) == Some(m + [Keyed(r, map[name := map[ref := id]])])
  {
    assert LowerBound(m, r) == |m|;
    var e: Keyed<Names> := Keyed(r, map[name := map[ref := id]]);
    assert m[..|m|] + [e] + m[|m|..] == m + [e];
  }

  /** The number of ranks in the ranges before the k-th. */
  function Start<V>(ps: seq<Keyed<V>>, k: nat): nat
    requires k <= |ps|
  {
    if k == 0 then 0 else Start(ps, k - 1) + (ps[k - 1].range.high - ps[k - 1].range.low + 1)
  }

  /** The range of the nested instance that the k-th range of the parent becomes. */
  function NewRange<V>(ps: seq<Keyed<V>>, k: nat): (r: Range)
    requires k < |ps|
  {
    Range(Start(ps, k), Start(ps, k) + (ps[k].range.high - ps[k].range.low))
  }

  /** Every rank of the range has its number, counted from `start`. */
  ghost predicate Shifted(names: Names, r: Range, start: nat) {
    && EXEC_TARGET in names
    && forall x :: r.low <= x <= r.high ==> x in names[EXEC_TARGET] && names[EXEC_TARGET][x] == x - r.low + start
  }

  ghost predicate Cores(names: Names, from: seq<nat>, to: seq<nat>) {
    |from| <= |to| && forall j :: 0 <= j < |from| ==> Maps(names, CORE, from[j], to[j])
  }

  predicate Maps(names: Names, name: string, ref: nat, id: nat) {
    name in names && ref in names[name] && names[name][ref] == id
  }

  /** The remapper after the first k ranges of the parent. */
  ghost predicate Built(m: seq<Keyed<Names>>, qs: seq<Keyed<seq<nat>>>, ps: seq<Keyed<seq<nat>>>, k: nat)
    requires k <= |ps|
  {
    && |m| == k
    && forall i {:trigger BuiltOne(m[i], qs, ps, i)} :: 0 <= i < k ==> BuiltOne(m[i], qs, ps, i)
  }

  ghost predicate BuiltOne(e: Keyed<Names>, qs: seq<Keyed<seq<nat>>>, ps: seq<Keyed<seq<nat>>>, i: nat)
    requires i < |ps|
  {
    && e.range == ps[i].range && Shifted(e.value, e.range, Start(ps, i))
    && Find(qs, NewRange(ps, i)).Some?
    && Cores(e.value, ps[i].value, qs[Find(qs, NewRange(ps, i)).value].value)
  }

  function Upto(low: nat, n: nat): (s: seq<nat>)
    ensures |s| == n && forall j :: 0 <= j < n ==> s[j] == low + j
  {
    if n == 0 then [] else Upto(low, n - 1) + [low + n - 1]
  }

  /** The map with every rank of `r` added, numbered from `start`. */
  function WithRange(m: seq<Keyed<Names>>, r: Range, start: nat): Option<seq<Keyed<Names>>> {
    var n := r.high - r.low + 1;
    AddedAll(m, r, EXEC_TARGET, Upto(r.low, n), Upto(start, n), n)
  }

  class Remapper {
    var remap: seq<Keyed<Names>>

    constructor ()
      ensures remap == []
    {
      remap := [];
    }

    method Add(r: Range, name: string, ref: nat, id: nat) returns (ok: bool)
      requires Ascending(remap)
      modifies this
      ensures Ascending(remap)
      ensures ok <==> Added(old(remap), r, name, ref, id).Some?
      ensures remap == if ok then Added(old(remap), r, name, ref, id).value else old(remap)
    {
      var k := Find(remap, r);
      if k.None? {
        PutAscending<Names>(remap, r, map[name := map[ref := id]]);
        remap := Put<Names>(remap, r, map[name := map[ref := id]]);
        return true;
      }
      if remap[k.value].range != r {
        return false;
      }
      var names := Named(remap[k.value].value, name, ref, id);
      if names.None? {
        return false;
      }
      ReplaceAscending(remap, k.value, Keyed(r, names.value));
      remap := remap[k.value := Keyed(r, names.value)];
      ok := true;
    }

    /** add_exec_target_range */
    method AddExecTargetRange(r: Range, rr: Range) returns (ok: bool)
      requires Ascending(remap)
      modifies this
      ensures Ascending(remap)
      ensures ok <==> r.high - r.low == rr.high - rr.low && WithRange(old(remap), r, rr.low).Some?
      ensures ok ==> WithRange(old(remap), r, rr.low) == Some(remap)
    {
      if r.high - r.low != rr.high - rr.low {
        return false;
      }
      ghost var n := r.high - r.low + 1;
      ok := AddRanks(r, rr, Upto(r.low, n), Upto(rr.low, n));
      assert AddsNth(old(remap), r, EXEC_TARGET, Upto(r.low, n), Upto(rr.low, n), n, if ok then Some(remap) else None);
    }

    /** Adds the k-th of several reference ids. */
    method AddNth(r: Range, name: string, ref: nat, id: nat, ghost m: seq<Keyed<Names>>, ghost refs: seq<nat>,
                  ghost ids: seq<nat>, ghost k: nat)
      returns (ok: bool)
      requires Ascending(remap) && k < |refs| <= |ids| && refs[k] == ref && ids[k] == id
      requires AddsTo(m, r, name, refs, ids, k, Some(remap))
      modifies this
      ensures Ascending(remap)
      ensures if ok then AddsTo(m, r, name, refs, ids, k + 1, Some(remap))
              else AddsTo(m, r, name, refs, ids, |refs|, None)
    {
      AddedStep(m, r, name, refs, ids, k, |refs|, remap);
      ok := Add(r, name, ref, id);
    }

    /** Its loop. */
    method AddRanks(r: Range, rr: Range, ghost refs: seq<nat>, ghost ids: seq<nat>) returns (ok: bool)
      requires Ascending(remap) && r.high - r.low == rr.high - rr.low && |refs| == |ids| == r.high - r.low + 1
      requires forall k :: 0 <= k < |refs| ==> refs[k] == r.low + k && ids[k] == rr.low + k
      modifies this
      ensures Ascending(remap)
      ensures AddsTo(old(remap), r, EXEC_TARGET, refs, ids, |refs|, if ok then Some(remap) else None)
    {
      AddsNothing(remap, r, EXEC_TARGET, refs, ids);
      var i, j := r.low, rr.low;
      while i <= r.high && j <= rr.high
        invariant r.low <= i <= r.high + 1 && j - rr.low == i - r.low && Ascending(remap)
        invariant AddsTo(old(remap), r, EXEC_TARGET, refs, ids, i - r.low, Some(remap))
      {
        ok := AddNth(r, EXEC_TARGET, i, j, old(remap), refs, ids, i - r.low);
        if !ok {
          return;
        }
        i, j := i + 1, j + 1;
      }
      ok := true;
    }

    /** The core loop of remap_jgf_namespace; the source reads past the end of a shorter `to`. */
    method AddCores(r: Range, from: seq<nat>, to: seq<nat>) returns (ok: bool)
      requires Ascending(remap)
      modifies this
      ensures Ascending(remap)
      ensures ok <==> |from| <= |to| && AddedAll(old(remap), r, CORE, from, to, |from|).Some?
      ensures ok ==> AddedAll(old(remap), r, CORE, from, to, |from|) == Some(remap)
    {
      if |to| < |from| {
        return false;
      }
      AddsNothing(remap, r, CORE, from, to);
      for j := 0 to |from|
        invariant Ascending(remap) && AddsTo(old(remap), r, CORE, from, to, j, Some(remap))
      {
        ok := AddNth(r, CORE, from[j], to[j], old(remap), from, to, j);
        if !ok {
          assert AddsNth(old(remap), r, CORE, from, to, |from|, None);
          return;
        }
      }
      assert AddsNth(old(remap), r, CORE, from, to, |from|, Some(remap));
      ok := true;
    }

    /** remap_jgf_namespace for the ranges `ps` of the parent and `qs` of the nested instance. */
    method RemapJgfNamespace(qs: seq<Keyed<seq<nat>>>, ps: seq<Keyed<seq<nat>>>) returns (ok: bool)
      requires Ascending(ps) && Ascending(remap)
      modifies this
      ensures Ascending(remap)
      ensures ok && old(remap) == [] ==> Built(remap, qs, ps, |ps|)
      ensures old(remap) == [] ==> (ok <==> forall k :: 0 <= k < |ps| ==> RangeOk(qs, ps, k))
    {
      var curRank := 0;
      for k := 0 to |ps|
        invariant Ascending(remap) && curRank == Start(ps, k)
        invariant old(remap) == [] ==> Built(remap, qs, ps, k) && forall i :: 0 <= i < k ==> RangeOk(qs, ps, i)
      {
        ghost var m0 := remap;
        ok := RemapRange(qs, ps, k, curRank);
        if old(remap) == [] {
          KeysBelow(m0, qs, ps, k);
        }
        if !ok {
          return;
        }
        if old(remap) == [] {
          BuildStep(m0, remap, qs, ps, k);
        }
        curRank := curRank + (ps[k].range.high - ps[k].range.low + 1);
      }
      ok := true;
    }

    /** One turn of its loop: the ranks and cores of one range. */
    method RemapRange(qs: seq<Keyed<seq<nat>>>, ps: seq<Keyed<seq<nat>>>, k: nat, curRank: nat) returns (ok: bool)
      requires Ascending(remap) && k < |ps| && curRank == Start(ps, k)
      modifies this
      ensures Ascending(remap)
      ensures AllBelow(old(remap), ps[k].range) ==>
                (ok <==> RangeOk(qs, ps, k)) && (ok ==> RangeDone(qs, ps, k, old(remap), remap))
    {
      var r := ps[k].range;
      var newRange := Range(curRank, r.high - r.low + curRank);
      var q := Find(qs, newRange);
      if q.None? {
        return false;
      }
      ghost var m0 := remap;
      ok := AddExecTargetRange(r, newRange);
      ghost var above := AllBelow(m0, r);
      if above {
        RangeFits(m0, r, curRank);
      }
      if !ok {
        return;
      }
      ghost var m1 := remap;
      ok := AddCores(r, ps[k].value, qs[q.value].value);
      if above {
        CoresFit(m0, m1, r, curRank, ps[k].value, qs[q.value].value);
        if ok {
          RangeAdded(m0, m1, remap, r, curRank, ps[k].value, qs[q.value].value);
        }
      }
    }
  }

  ghost predicate AllBelow(m: seq<Keyed<Names>>, r: Range) {
    forall i :: 0 <= i < |m| ==> m[i].range.high < r.low
  }

  /** The k-th range has become the last key, with its ranks and cores. */
  ghost predicate RangeDone(qs: seq<Keyed<seq<nat>>>, ps: seq<Keyed<seq<nat>>>, k: nat, m: seq<Keyed<Names>>,
                            after: seq<Keyed<Names>>)
    requires k < |ps| && RangeOk(qs, ps, k)
  {
    var r := ps[k].range;
    LastIs(after, m, r) && Shifted(after[|m|].value, r, Start(ps, k))
    && Cores(after[|m|].value, ps[k].value, qs[Find(qs, NewRange(ps, k)).value].value)
  }

  /** The range has a counterpart with as many cores, and lists no core twice. */
  ghost predicate RangeOk(qs: seq<Keyed<seq<nat>>>, ps: seq<Keyed<seq<nat>>>, k: nat)
    requires k < |ps|
  {
    var q, cores := Find(qs, NewRange(ps, k)), ps[k].value;
    && q.Some? && |cores| <= |qs[q.value].value|
    && forall i, j :: 0 <= i < j < |cores| ==> cores[i] != cores[j]
  }

  lemma OtherName()
    ensures CORE != EXEC_TARGET
  {
    assert |CORE| == 4 && |EXEC_TARGET| == 11;
  }

  lemma NoCoresYet(m0: seq<Keyed<Names>>, m1: seq<Keyed<Names>>, r: Range, start: nat)
    requires forall i :: 0 <= i < |m0| ==> m0[i].range.high < r.low
    requires WithRange(m0, r, start) == Some(m1)
    ensures LastIs(m1, m0, r) && Ids(m1[|m0|].value, CORE) == {}
  {
    var n := r.high - r.low + 1;
    AddedAbove(m0, r, EXEC_TARGET, Upto(r.low, n), Upto(start, n), n);
    OtherName();
  }

  lemma CoresFit(m0: seq<Keyed<Names>>, m1: seq<Keyed<Names>>, r: Range, start: nat, from: seq<nat>, to: seq<nat>)
    requires forall i :: 0 <= i < |m0| ==> m0[i].range.high < r.low
    requires WithRange(m0, r, start) == Some(m1)
    ensures |from| <= |to| ==> (AddedAll(m1, r, CORE, from, to, |from|).Some?
                                <==> forall i, j :: 0 <= i < j < |from| ==> from[i] != from[j])
  {
    NoCoresYet(m0, m1, r, start);
    if |from| <= |to| {
      AddedToLastExactly(m1, m0, r, CORE, from, to, |from|);
    }
  }

  /** What the two loops of one turn leave behind for a range above every key. */
  lemma RangeAdded(m0: seq<Keyed<Names>>, m1: seq<Keyed<Names>>, m2: seq<Keyed<Names>>, r: Range, start: nat,
                   from: seq<nat>, to: seq<nat>)
    requires forall i :: 0 <= i < |m0| ==> m0[i].range.high < r.low
    requires WithRange(m0, r, start) == Some(m1)
    requires |from| <= |to| && AddedAll(m1, r, CORE, from, to, |from|) == Some(m2)
    ensures LastIs(m2, m0, r) && Shifted(m2[|m0|].value, r, start) && Cores(m2[|m0|].value, from, to)
  {
    var n := r.high - r.low + 1;
    var refs, ids := Upto(r.low, n), Upto(start, n);
    AddedAbove(m0, r, EXEC_TARGET, refs, ids, n);
    ExtendedShifts(m1[|m0|].value, r, start, refs, ids);
    AddedToLast(m1, m0, r, CORE, from, to, |from|);
  }

  lemma KeysBelow(m: seq<Keyed<Names>>, qs: seq<Keyed<seq<nat>>>, ps: seq<Keyed<seq<nat>>>, k: nat)
    requires Ascending(ps) && k < |ps| && Built(m, qs, ps, k)
    ensures forall i :: 0 <= i < |m| ==> m[i].range.high < ps[k].range.low
  {
    forall i | 0 <= i < |m|
      ensures m[i].range.high < ps[k].range.low
    {
      assert BuiltOne(m[i], qs, ps, i) && Below(ps, i, k);
    }
  }

  lemma BuildStep(m0: seq<Keyed<Names>>, m2: seq<Keyed<Names>>, qs: seq<Keyed<seq<nat>>>, ps: seq<Keyed<seq<nat>>>, k: nat)
    requires k < |ps| && Built(m0, qs, ps, k) && LastIs(m2, m0, ps[k].range)
    requires Shifted(m2[k].value, ps[k].range, Start(ps, k)) && Find(qs, NewRange(ps, k)).Some?
    requires Cores(m2[k].value, ps[k].value, qs[Find(qs, NewRange(ps, k)).value].value)
    ensures Built(m2, qs, ps, k + 1)
  {
    forall i | 0 <= i < k
      ensures BuiltOne(m2[i], qs, ps, i)
    {
      assert BuiltOne(m0[i], qs, ps, i);
      assert m2[i] == m2[..k][i] == m0[i];
    }
  }

  lemma ExtendedShifts(names: Names, r: Range, start: nat, refs: seq<nat>, ids: seq<nat>)
    requires |refs| == |ids| == r.high - r.low + 1
    requires forall j :: 0 <= j < |refs| ==> refs[j] == r.low + j && ids[j] == start + j
    requires Extended(map[], names, EXEC_TARGET, refs, ids, |refs|)
    ensures Shifted(names, r, start)
  {
    assert refs[0] == r.low && Maps(names, EXEC_TARGET, refs[0], ids[0]);
    forall x | r.low <= x <= r.high
      ensures x in names[EXEC_TARGET] && names[EXEC_TARGET][x] == x - r.low + start
    {
      assert Maps(names, EXEC_TARGET, refs[x - r.low], ids[x - r.low]);
    }
  }

  // ----- The numbers are the positions among the parent's ranks

  predicate Covered<V>(ps: seq<Keyed<V>>, x: int) {
    exists k :: 0 <= k < |ps| && ps[k].range.low <= x <= ps[k].range.high
  }

  /** How many of the parent's ranks are smaller. */
  ghost function Position<V>(ps: seq<Keyed<V>>, x: nat): nat {
    if x == 0 then 0 else Position(ps, x - 1) + if Covered(ps, x - 1) then 1 else 0
  }

  /** Between the ranges the position is the number of ranks in the ranges passed. */
  lemma {:induction false} PositionBetween<V>(ps: seq<Keyed<V>>, x: nat, k: nat)
    requires Ascending(ps) && k <= |ps|
    requires forall i :: 0 <= i < k ==> ps[i].range.high < x
    requires forall i :: k <= i < |ps| ==> x <= ps[i].range.low
    ensures Position(ps, x) == Start(ps, k)
    decreases x, 0
  {
    if x > 0 {
      if k > 0 && ps[k - 1].range.high == x - 1 {
        PositionInside(ps, x - 1, k - 1);
      } else {
        forall i | 0 <= i < k
          ensures ps[i].range.high < x - 1
        {
          assert i < k - 1 ==> Below(ps, i, k - 1);
        }
        assert !Covered(ps, x - 1);
        PositionBetween(ps, x - 1, k);
      }
    }
  }

  lemma {:induction false} PositionInside<V>(ps: seq<Keyed<V>>, x: nat, k: nat)
    requires Ascending(ps) && k < |ps| && ps[k].range.low <= x <= ps[k].range.high
    ensures Covered(ps, x) && Position(ps, x) == Start(ps, k) + (x - ps[k].range.low)
    decreases x, 1
  {
    if x == ps[k].range.low {
      forall i | 0 <= i < |ps| && i != k
        ensures if i < k then ps[i].range.high < x else x <= ps[i].range.low
      {
        assert i < k ==> Below(ps, i, k);
        assert k < i ==> Below(ps, k, i);
      }
      PositionBetween(ps, x, k);
    } else {
      PositionInside(ps, x - 1, k);
    }
  }

  /** After a successful remap a rank is renumbered to its position among the parent's ranks; others are unknown. */
  lemma RemapIsPosition(m: seq<Keyed<Names>>, qs: seq<Keyed<seq<nat>>>, ps: seq<Keyed<seq<nat>>>, x: nat)
    requires Ascending(ps) && Ascending(m) && Built(m, qs, ps, |ps|)
    ensures QueryExecTarget(m, x) == if Covered(ps, x) then Some(Position(ps, x)) else None
  {
    if Covered(ps, x) {
      var k :| 0 <= k < |ps| && ps[k].range.low <= x <= ps[k].range.high;
      QueryInside(m, qs, ps, k, x);
      PositionInside(ps, x, k);
    } else {
      QueryOutside(m, qs, ps, x);
    }
  }

  lemma QueryOutside(m: seq<Keyed<Names>>, qs: seq<Keyed<seq<nat>>>, ps: seq<Keyed<seq<nat>>>, x: nat)
    requires Ascending(m) && Built(m, qs, ps, |ps|) && !Covered(ps, x)
    ensures QueryExecTarget(m, x) == None
  {
    forall k | 0 <= k < |m|
      ensures !(m[k].range.low <= x <= m[k].range.high)
    {
      assert BuiltOne(m[k], qs, ps, k);
    }
    FindNothing(m, x);
  }

  lemma QueryInside(m: seq<Keyed<Names>>, qs: seq<Keyed<seq<nat>>>, ps: seq<Keyed<seq<nat>>>, k: nat, x: nat)
    requires Ascending(m) && Built(m, qs, ps, |ps|) && k < |ps| && ps[k].range.low <= x <= ps[k].range.high
    ensures Find(m, Range(x, x)) == Some(k) && BuiltOne(m[k], qs, ps, k)
    ensures QueryExecTarget(m, x) == Some(Start(ps, k) + (x - ps[k].range.low))
  {
    assert BuiltOne(m[k], qs, ps, k);
    FindIsUnique(m, x, k);
  }

  /** Cores follow their rank: each core of the parent's range goes to the core listed in the same place. */
  lemma RemapCores(m: seq<Keyed<Names>>, qs: seq<Keyed<seq<nat>>>, ps: seq<Keyed<seq<nat>>>, k: nat, x: nat, j: nat)
    requires Ascending(m) && Built(m, qs, ps, |ps|) && k < |ps| && ps[k].range.low <= x <= ps[k].range.high && j < |ps[k].value|
    ensures var q := Find(qs, NewRange(ps, k));
            q.Some? && j < |qs[q.value].value| && Query(m, x, CORE, ps[k].value[j]) == Some(qs[q.value].value[j])
  {
    QueryInside(m, qs, ps, k, x);
    var from, to := ps[k].value, qs[Find(qs, NewRange(ps, k)).value].value;
    assert Cores(m[k].value, from, to);
    assert Maps(m[k].value, CORE, from[j], to[j]);
  }

  lemma {:induction false} PositionMonotone<V>(ps: seq<Keyed<V>>, x: nat, y: nat)
    requires x < y && Covered(ps, x)
    ensures Position(ps, x) < Position(ps, y)
  {
    if x + 1 < y {
      PositionMonotone(ps, x, y - 1);
    }
  }

  lemma {:induction false} StartMonotone<V>(ps: seq<Keyed<V>>, i: nat, j: nat)
    requires i <= j <= |ps|
    ensures Start(ps, i) <= Start(ps, j)
  {
    if i < j {
      StartMonotone(ps, i, j - 1);
    }
  }

  lemma {:induction false} RankAt<V>(ps: seq<Keyed<V>>, v: nat, k: nat) returns (x: nat)
    requires Ascending(ps) && k <= |ps| && v < Start(ps, k)
    ensures Covered(ps, x) && Position(ps, x) == v
  {
    if Start(ps, k - 1) <= v {
      x := ps[k - 1].range.low + (v - Start(ps, k - 1));
      PositionInside(ps, x, k - 1);
    } else {
      x := RankAt(ps, v, k - 1);
    }
  }

  /** Some rank of the parent is renumbered to `v`. */
  ghost predicate Reached(m: seq<Keyed<Names>>, ps: seq<Keyed<seq<nat>>>, v: nat) {
    exists x: nat :: Covered(ps, x) && QueryExecTarget(m, x) == Some(v)
  }

  /** query_exec_target is an order-preserving bijection of the parent's ranks onto 0..N-1. */
  lemma RemapIsBijection(m: seq<Keyed<Names>>, qs: seq<Keyed<seq<nat>>>, ps: seq<Keyed<seq<nat>>>)
    requires Ascending(ps) && Ascending(m) && Built(m, qs, ps, |ps|)
    ensures forall x: nat :: Covered(ps, x) ==> QueryExecTarget(m, x).Some? && QueryExecTarget(m, x).value < Start(ps, |ps|)
    ensures forall x: nat, y: nat :: x < y && Covered(ps, x) && Covered(ps, y) ==>
              QueryExecTarget(m, x).value < QueryExecTarget(m, y).value
    ensures forall v: nat :: v < Start(ps, |ps|) ==> Reached(m, ps, v)
  {
    forall x: nat
      ensures QueryExecTarget(m, x) == if Covered(ps, x) then Some(Position(ps, x)) else None
    {
      RemapIsPosition(m, qs, ps, x);
    }
    forall x: nat | Covered(ps, x)
      ensures Position(ps, x) < Start(ps, |ps|)
    {
      var k :| 0 <= k < |ps| && ps[k].range.low <= x <= ps[k].range.high;
      PositionInside(ps, x, k);
      StartMonotone(ps, k + 1, |ps|);
    }
    forall x: nat, y: nat | x < y && Covered(ps, x) && Covered(ps, y)
      ensures Position(ps, x) < Position(ps, y)
    {
      PositionMonotone(ps, x, y);
    }
    forall v: nat | v < Start(ps, |ps|)
      ensures Reached(m, ps, v)
    {
      var x := RankAt(ps, v, |ps|);
      assert QueryExecTarget(m, x) == Some(v);
    }
  }
}
