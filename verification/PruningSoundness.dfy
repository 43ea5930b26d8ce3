/** Pruning by subtree totals never discards a vertex that could host the request
    (prime_jobspec and by_subplan in resource/traversers/dfu_impl.cpp). */
module PruningSoundness {
  import opened Common
  import opened PruningFilter

  /** A request asks for pools of a type, or for slots that group what is below them. */
  datatype Kind = Pool(rtype: nat) | Slot

  datatype Resource = Resource(kind: Kind, min: nat, with: seq<Resource>)

  /** A request annotated with the aggregate demand below each of its resources. */
  datatype Primed = Primed(kind: Kind, min: nat, with: seq<Primed>, userData: Totals)

  // ----- Demand

  /** The units of type `t` that the minimum counts of `rs` and of everything below it add up to. */
  ghost function Demand(rs: seq<Resource>, t: nat): nat
    decreases rs, 1
  {
    if rs == [] then 0 else Demand(rs[..|rs| - 1], t) + DemandOne(rs[|rs| - 1], t)
  }

  ghost function DemandOne(r: Resource, t: nat): nat
    decreases r, 0
  {
    (if r.kind == Pool(t) then r.min else 0) + r.min * Demand(r.with, t)
  }

  /** `m` holds the demand of `rs` for every pruning type, up to truncation, and for no other. */
  ghost predicate Carries(total: set<nat>, rs: seq<Resource>, m: Totals) {
    forall t: nat :: if t in total then Kept(Demand(rs, t), Get(m, t)) else Get(m, t) == 0
  }

  /** `ps` is `rs` with the demand below every resource filled in. */
  ghost predicate Annotates(total: set<nat>, rs: seq<Resource>, ps: seq<Primed>)
    decreases rs
  {
    && |ps| == |rs|
    && forall i :: 0 <= i < |rs| ==>
         && ps[i].kind == rs[i].kind && ps[i].min == rs[i].min
         && Carries(total, rs[i].with, ps[i].userData)
         && Annotates(total, rs[i].with, ps[i].with)
  }

  function AccumIf(total: set<nat>, t: nat, count: nat, accum: Totals): Totals {
    if t in total then accum[t := Get(accum, t) + count % TWO32] else accum
  }

  lemma KeptMul(k: nat, sum: nat, got: int)
    requires Kept(sum, got)
    ensures Kept(k * sum, k * got)
  {
    var q := (sum - got) / TWO32;
    assert sum - got == q * TWO32;
    assert k * sum - k * got == k * (sum - got) == (k * q) * TWO32;
    assert ((k * q) * TWO32) % TWO32 == 0;
  }

  /** prime_jobspec: annotates `rs` and returns the demand it passes to its parent. */
  method PrimeJobspec(total: set<nat>, rs: seq<Resource>) returns (ps: seq<Primed>, toParent: Totals)
    ensures Carries(total, rs, toParent)
    ensures Annotates(total, rs, ps)
    decreases rs
  {
    ps, toParent := [], map[];
    for i := 0 to |rs|
      invariant Carries(total, rs[..i], toParent)
      invariant Annotates(total, rs[..i], ps)
    {
      var r := rs[i];
      var with, userData := PrimeJobspec(total, r.with);
      ps := ps + [Primed(r.kind, r.min, with, userData)];
      toParent := PassUp(total, rs, i, userData, toParent);
    }
    assert rs[..|rs|] == rs;
  }

  /** Adds one resource and the demand below it. */
  method PassUp(total: set<nat>, rs: seq<Resource>, i: nat, userData: Totals, toParent: Totals) returns (out: Totals)
    requires i < |rs| && Carries(total, rs[..i], toParent) && Carries(total, rs[i].with, userData)
    ensures Carries(total, rs[..i + 1], out)
  {
    var r := rs[i];
    var own := if r.kind.Pool? then AccumIf(total, r.kind.rtype, r.min, toParent) else toParent;
    out := AddScaled(total, r.min, userData, own);
    forall t: nat
      ensures if t in total then Kept(Demand(rs[..i + 1], t), Get(out, t)) else Get(out, t) == 0
    {
      CarriesStep(total, rs, i, t, Get(toParent, t), Get(userData, t), Get(out, t));
    }
  }

  method AddScaled(total: set<nat>, k: nat, more: Totals, accum: Totals) returns (out: Totals)
    ensures forall t: nat :: Get(out, t) - Get(accum, t) == if t in total then Scaled(k, Get(more, t)) else 0
  {
    out := accum;
    var todo := more.Keys;
    while todo != {}
      invariant todo <= more.Keys
      invariant forall t: nat :: Get(out, t) - Get(accum, t)
                                   == if t in total && t !in todo then Scaled(k, Get(more, t)) else 0
      decreases |todo|
    {
      var t :| t in todo;
      out := AccumIf(total, t, k * more[t], out);
      todo := todo - {t};
    }
  }

  /** The product handed to a 32-bit parameter. */
  function Scaled(k: nat, n: nat): nat {
    (k * n) % TWO32
  }

  lemma CarriesStep(total: set<nat>, rs: seq<Resource>, i: nat, t: nat, parent: nat, user: nat, out: nat)
    requires i < |rs|
    requires if t in total then Kept(Demand(rs[..i], t), parent) && Kept(Demand(rs[i].with, t), user) else parent == 0
    requires out == parent + if t in total
                             then (if rs[i].kind == Pool(t) then rs[i].min % TWO32 else 0) + Scaled(rs[i].min, user)
                             else 0
    ensures if t in total then Kept(Demand(rs[..i + 1], t), out) else out == 0
  {
    if t in total {
      var min, below := rs[i].min, Demand(rs[i].with, t);
      assert rs[..i + 1][..i] == rs[..i];
      KeptMul(min, below, user);
      KeptStep(Demand(rs[..i], t), parent, if rs[i].kind == Pool(t) then min else 0, min * below, min * user);
    }
  }

  lemma KeptStep(sum: nat, got: int, own: nat, more: nat, user: nat)
    requires Kept(sum, got) && Kept(more, user)
    ensures Kept(sum + own + more, got + own % TWO32 + user % TWO32)
  {
    KeptTruncated(more, user);
    assert Kept(own, own % TWO32);
    KeptSum(sum, got, own, own % TWO32);
    KeptSum(sum + own, got + own % TWO32, more, user % TWO32);
  }

  // ----- Hosting a request on the vertices of a graph. The size of a vertex stands for its free units.

  /** One granted unit: the vertex it is on (none for a slot) and what is granted below it, one
      grant for each resource below. */
  datatype Unit = Unit(at: Option<nat>, below: seq<Grant>)

  /** What is granted to one resource. */
  datatype Grant = Grant(units: seq<Unit>)

  ghost function Used(units: seq<Unit>): seq<nat>
    decreases units, 1
  {
    if units == [] then [] else Used(units[..|units| - 1]) + UsedByUnit(units[|units| - 1])
  }

  ghost function UsedByUnit(u: Unit): seq<nat>
    decreases u, 0
  {
    (if u.at.Some? then [u.at.value] else []) + UsedAll(u.below)
  }

  ghost function UsedAll(ps: seq<Grant>): seq<nat>
    decreases ps, 1
  {
    if ps == [] then [] else UsedAll(ps[..|ps| - 1]) + Used(ps[|ps| - 1].units)
  }

  /** `ps` grants every resource of `rs` its minimum. */
  ghost predicate Places(g: Graph, s: nat, rs: seq<Resource>, ps: seq<Grant>)
    decreases rs, 2
  {
    |ps| == |rs| && forall i :: 0 <= i < |rs| ==> PlacesOne(g, s, rs[i], ps[i].units)
  }

  ghost predicate PlacesOne(g: Graph, s: nat, r: Resource, units: seq<Unit>)
    decreases r, 1
  {
    && (forall i :: 0 <= i < |units| ==> PlacesUnit(g, s, r, units[i]))
    && r.min <= if r.kind.Slot? then |units| else OwnUnits(g, units)
  }

  /** A unit of a pool is on a vertex of its type and hosts what is below on that vertex's own
      descendants. */
  ghost predicate PlacesUnit(g: Graph, s: nat, r: Resource, u: Unit)
    decreases r, 0
  {
    && Places(g, s, r.with, u.below)
    && match r.kind
       case Slot => u.at.None?
       case Pool(t) =>
         && u.at.Some? && u.at.value < |g| && g[u.at.value].rtype == t
         && AllBelow(g, s, u.at.value, UsedAll(u.below))
  }

  ghost predicate AllBelow(g: Graph, s: nat, v: nat, xs: seq<nat>) {
    forall i :: 0 <= i < |xs| ==> xs[i] < |g| && xs[i] != v && Reaches(g, s, v, xs[i])
  }

  ghost function OwnUnits(g: Graph, units: seq<Unit>): nat {
    if units == [] then 0
    else
      var u := units[|units| - 1];
      OwnUnits(g, units[..|units| - 1]) + (if u.at.Some? && u.at.value < |g| then g[u.at.value].size else 0)
  }

  /** The units of type `t` on a list of vertices. */
  ghost function ListUnits(g: Graph, vs: seq<nat>, t: nat): nat {
    if vs == [] then 0
    else
      var v := vs[|vs| - 1];
      ListUnits(g, vs[..|vs| - 1], t) + (if v < |g| && g[v].rtype == t then g[v].size else 0)
  }

  lemma {:induction false} ListUnitsAppend(g: Graph, a: seq<nat>, b: seq<nat>, t: nat)
    ensures ListUnits(g, a + b, t) == ListUnits(g, a, t) + ListUnits(g, b, t)
  {
    if b == [] {
      assert a + b == a;
    } else {
      assert (a + b)[..|a + b| - 1] == a + b[..|b| - 1];
      ListUnitsAppend(g, a, b[..|b| - 1], t);
    }
  }

  /** The proper descendants of a vertex. */
  ghost function Below(g: Graph, s: nat, v: nat): set<nat> {
    set x | 0 <= x < |g| && x != v && Reaches(g, s, v, x)
  }

  /** A vertex of two or more units has no unit of type `t` below it within `S`. */
  ghost predicate Thin(g: Graph, s: nat, S: set<nat>, t: nat, w: nat) {
    w < |g| && g[w].size >= 2 ==> Units(g, Below(g, s, w) * S, t) == 0
  }

  ghost predicate ThinIn(g: Graph, s: nat, S: set<nat>, t: nat, w: nat) {
    w in S && Thin(g, s, S, t, w)
  }

  ghost predicate AllThin(g: Graph, s: nat, S: set<nat>, t: nat, vs: seq<nat>) {
    forall i {:trigger ThinIn(g, s, S, t, vs[i])} :: 0 <= i < |vs| ==> ThinIn(g, s, S, t, vs[i])
  }

  /** Only leaves hold more than one unit: then every vertex is thin for every type. */
  ghost predicate InteriorSizeOne(g: Graph) {
    forall v :: 0 <= v < |g| && g[v].out != [] ==> g[v].size <= 1
  }

  lemma InteriorIsThin(g: Graph, s: nat, S: set<nat>, t: nat, w: nat)
    requires InteriorSizeOne(g)
    ensures Thin(g, s, S, t, w)
  {
    if w < |g| && g[w].size >= 2 {
      forall x | x in Below(g, s, w)
        ensures false
      {
        HasOutEdge(g, s, w, x);
      }
      assert Below(g, s, w) * S == {};
      UnitsOfNone(g, t, |g|);
    }
  }

  lemma HasOutEdge(g: Graph, s: nat, v: nat, x: nat)
    requires v < |g| && x != v && Reaches(g, s, v, x)
    ensures g[v].out != []
  {
    var p :| IsPath(g, s, p) && p[0] == v && p[|p| - 1] == x;
    assert Linked(g, s, p[0], p[1]);
  }

  lemma {:induction false} ListHasUnit(g: Graph, vs: seq<nat>, t: nat) returns (i: nat)
    requires ListUnits(g, vs, t) > 0
    ensures i < |vs| && vs[i] < |g| && g[vs[i]].rtype == t && g[vs[i]].size > 0
  {
    var l := |vs| - 1;
    if vs[l] < |g| && g[vs[l]].rtype == t && g[vs[l]].size > 0 {
      i := l;
    } else {
      i := ListHasUnit(g, vs[..l], t);
    }
  }

  lemma {:induction false} SetHasUnit(g: Graph, S: set<nat>, t: nat, x: nat, n: nat)
    requires n <= |g| && x in S && x < n && g[x].rtype == t
    ensures UnitsUpTo(g, S, t, n) >= g[x].size
  {
    if x < n - 1 {
      SetHasUnit(g, S, t, x, n - 1);
    }
  }

  // ----- A hosted request's demand is covered by the vertices it uses

  lemma {:induction false} DemandCovered(g: Graph, s: nat, S: set<nat>, rs: seq<Resource>, ps: seq<Grant>, t: nat)
    requires Places(g, s, rs, ps) && AllThin(g, s, S, t, UsedAll(ps))
    ensures Demand(rs, t) <= ListUnits(g, UsedAll(ps), t)
    decreases rs
  {
    if ps != [] {
      var r, units := rs[|rs| - 1], ps[|ps| - 1].units;
      ThinParts(g, s, S, t, UsedAll(ps[..|ps| - 1]), Used(units));
      DemandCovered(g, s, S, rs[..|rs| - 1], ps[..|ps| - 1], t);
      ListUnitsAppend(g, UsedAll(ps[..|ps| - 1]), Used(units), t);
      OneCovered(g, s, S, r, units, t);
    }
  }

  lemma ThinParts(g: Graph, s: nat, S: set<nat>, t: nat, a: seq<nat>, b: seq<nat>)
    requires AllThin(g, s, S, t, a + b)
    ensures AllThin(g, s, S, t, a) && AllThin(g, s, S, t, b)
  {
    var all := a + b;
    forall i | 0 <= i < |a|
      ensures ThinIn(g, s, S, t, a[i])
    {
      assert ThinIn(g, s, S, t, all[i]);
    }
    forall i | 0 <= i < |b|
      ensures ThinIn(g, s, S, t, b[i])
    {
      assert ThinIn(g, s, S, t, all[|a| + i]);
    }
  }

  lemma {:induction false} OneCovered(g: Graph, s: nat, S: set<nat>, r: Resource, units: seq<Unit>, t: nat)
    requires PlacesOne(g, s, r, units) && AllThin(g, s, S, t, Used(units))
    ensures DemandOne(r, t) <= ListUnits(g, Used(units), t)
    decreases r, 3
  {
    UnitsCover(g, s, S, r, units, t);
    if Demand(r.with, t) > 0 && r.kind.Pool? {
      EnoughVertices(g, s, S, r, units, t);
    }
    if Demand(r.with, t) > 0 {
      MulMonotone(r.min, |units|, Demand(r.with, t));
    }
  }

  lemma MulMonotone(a: nat, b: nat, d: nat)
    requires a <= b
    ensures a * d <= b * d
  {}

  /** Every unit brings its own vertex and one full demand of what is below it. */
  lemma {:induction false} UnitsCover(g: Graph, s: nat, S: set<nat>, r: Resource, units: seq<Unit>, t: nat)
    requires forall i :: 0 <= i < |units| ==> PlacesUnit(g, s, r, units[i])
    requires AllThin(g, s, S, t, Used(units))
    ensures ListUnits(g, Used(units), t)
            >= (if r.kind == Pool(t) then OwnUnits(g, units) else 0) + |units| * Demand(r.with, t)
    decreases r, 2, |units|
  {
    if units != [] {
      var init, u := units[..|units| - 1], units[|units| - 1];
      assert Used(units) == Used(init) + UsedByUnit(u);
      ThinParts(g, s, S, t, Used(init), UsedByUnit(u));
      UnitsCover(g, s, S, r, init, t);
      ListUnitsAppend(g, Used(init), UsedByUnit(u), t);
      UnitCovers(g, s, S, r, u, t);
      MulStep(|units|, Demand(r.with, t));
    }
  }

  lemma MulStep(n: nat, d: nat)
    requires n >= 1
    ensures n * d == (n - 1) * d + d
  {}

  lemma {:induction false} UnitCovers(g: Graph, s: nat, S: set<nat>, r: Resource, u: Unit, t: nat)
    requires PlacesUnit(g, s, r, u) && AllThin(g, s, S, t, UsedByUnit(u))
    ensures ListUnits(g, UsedByUnit(u), t)
            >= (if r.kind == Pool(t) then g[u.at.value].size else 0) + Demand(r.with, t)
    decreases r, 1
  {
    var own := if u.at.Some? then [u.at.value] else [];
    ThinParts(g, s, S, t, own, UsedAll(u.below));
    DemandCovered(g, s, S, r.with, u.below, t);
    ListUnitsAppend(g, own, UsedAll(u.below), t);
    assert own != [] ==> own[..0] == [];
  }

  /** If something is demanded below, every vertex has a unit of it below and so holds one unit itself:
      there are at least as many vertices as units asked for. */
  lemma {:induction false} EnoughVertices(g: Graph, s: nat, S: set<nat>, r: Resource, units: seq<Unit>, t: nat)
    requires forall i :: 0 <= i < |units| ==> PlacesUnit(g, s, r, units[i])
    requires AllThin(g, s, S, t, Used(units)) && r.kind.Pool? && Demand(r.with, t) > 0
    ensures OwnUnits(g, units) <= |units|
    decreases r, 2, |units|
  {
    if units != [] {
      var init, u := units[..|units| - 1], units[|units| - 1];
      assert Used(units) == Used(init) + UsedByUnit(u);
      ThinParts(g, s, S, t, Used(init), UsedByUnit(u));
      EnoughVertices(g, s, S, r, init, t);
      HostIsSmall(g, s, S, r, u, t);
    }
  }

  lemma {:induction false} HostIsSmall(g: Graph, s: nat, S: set<nat>, r: Resource, u: Unit, t: nat)
    requires PlacesUnit(g, s, r, u) && AllThin(g, s, S, t, UsedByUnit(u)) && r.kind.Pool? && Demand(r.with, t) > 0
    ensures g[u.at.value].size <= 1
    decreases r, 1
  {
    var w, used := u.at.value, UsedAll(u.below);
    ThinParts(g, s, S, t, [w], used);
    assert ThinIn(g, s, S, t, [w][0]);
    DemandCovered(g, s, S, r.with, u.below, t);
    var i := ListHasUnit(g, used, t);
    assert ThinIn(g, s, S, t, used[i]);
    assert used[i] in Below(g, s, w) * S;
    SetHasUnit(g, Below(g, s, w) * S, t, used[i], |g|);
  }

  lemma {:induction false} ListWithinSet(g: Graph, vs: seq<nat>, S: set<nat>, t: nat)
    requires forall i :: 0 <= i < |vs| ==> vs[i] in S
    requires forall i, j :: 0 <= i < j < |vs| ==> vs[i] != vs[j]
    ensures ListUnits(g, vs, t) <= Units(g, S, t)
  {
    if vs != [] {
      var v := vs[|vs| - 1];
      ListWithinSet(g, vs[..|vs| - 1], S - {v}, t);
      UnitsSplit(g, S - {v}, {v}, t, |g|);
      assert S - {v} + {v} == S;
      UnitsOfOne(g, v, t, |g|);
    }
  }

  // ----- by_subplan

  /** by_subplan: a vertex without a filter, or a request without demand, is not pruned; otherwise
      every type of the filter must cover the demand. */
  predicate BySubplan(plan: Option<Totals>, userData: Totals) {
    plan.None? || userData == map[] || forall t <- plan.value :: Get(userData, t) <= plan.value[t]
  }

  ghost predicate Distinct(vs: seq<nat>) {
    forall i, j :: 0 <= i < j < |vs| ==> vs[i] != vs[j]
  }

  /** `ps` hosts `rs` on distinct vertices of `S`. */
  ghost predicate HostedOn(g: Graph, s: nat, rs: seq<Resource>, ps: seq<Grant>, S: set<nat>) {
    && Places(g, s, rs, ps)
    && (forall x <- UsedAll(ps) :: x in S)
    && Distinct(UsedAll(ps))
  }

  /** What can be hosted on `S` never asks for more than `S` has of type `t`. */
  ghost predicate Covers(g: Graph, s: nat, S: set<nat>, t: nat) {
    forall rs: seq<Resource>, ps: seq<Grant> :: HostedOn(g, s, rs, ps, S) ==> Demand(rs, t) <= Units(g, S, t)
  }

  lemma HostedIsCovered(g: Graph, s: nat, S: set<nat>, t: nat, rs: seq<Resource>, ps: seq<Grant>)
    requires HostedOn(g, s, rs, ps, S) && forall w :: w in S ==> Thin(g, s, S, t, w)
    ensures Demand(rs, t) <= Units(g, S, t)
  {
    var used := UsedAll(ps);
    forall i | 0 <= i < |used|
      ensures ThinIn(g, s, S, t, used[i])
    {
      assert used[i] in used;
    }
    DemandCovered(g, s, S, rs, ps, t);
    ListWithinSet(g, used, S, t);
  }

  // ----- A vertex that is not thin hosts a request whose aggregate exceeds what there is

  /** The vertices of type `t` in `S`, in ascending order. */
  ghost function Listing(g: Graph, S: set<nat>, t: nat, n: nat): seq<nat>
    requires n <= |g|
  {
    if n == 0 then []
    else Listing(g, S, t, n - 1) + if n - 1 in S && g[n - 1].rtype == t then [n - 1] else []
  }

  lemma {:induction false} ListingListsAll(g: Graph, S: set<nat>, t: nat, n: nat)
    requires n <= |g|
    ensures forall x <- Listing(g, S, t, n) :: x < n && x in S && g[x].rtype == t
    ensures Distinct(Listing(g, S, t, n))
  {
    if n > 0 {
      ListingListsAll(g, S, t, n - 1);
      DistinctAppend(Listing(g, S, t, n - 1), if n - 1 in S && g[n - 1].rtype == t then [n - 1] else []);
    }
  }

  lemma {:induction false} ListingUnits(g: Graph, S: set<nat>, t: nat, n: nat)
    requires n <= |g|
    ensures ListUnits(g, Listing(g, S, t, n), t) == UnitsUpTo(g, S, t, n)
  {
    if n > 0 {
      ListingUnits(g, S, t, n - 1);
      var last := if n - 1 in S && g[n - 1].rtype == t then [n - 1] else [];
      ListUnitsAppend(g, Listing(g, S, t, n - 1), last, t);
      assert last != [] ==> last[..0] == [];
    }
  }

  lemma DistinctAppend(a: seq<nat>, b: seq<nat>)
    requires Distinct(a) && Distinct(b) && forall x <- b :: x !in a
    ensures Distinct(a + b)
  {
    forall i, j | 0 <= i < j < |a + b|
      ensures (a + b)[i] != (a + b)[j]
    {
      if i < |a| <= j {
        assert b[j - |a|] in b;
      }
    }
  }

  ghost function OnEach(vs: seq<nat>): seq<Unit> {
    seq(|vs|, i requires 0 <= i < |vs| => Unit(Some(vs[i]), []))
  }

  lemma {:induction false} OnEachUses(vs: seq<nat>)
    ensures Used(OnEach(vs)) == vs
  {
    var us := OnEach(vs);
    if vs != [] {
      var l := |vs| - 1;
      OnEachUses(vs[..l]);
      assert us[..l] == OnEach(vs[..l]);
      UsedByBare(vs[l]);
      assert vs == vs[..l] + [vs[l]];
    }
  }

  lemma UsedByBare(v: nat)
    ensures UsedByUnit(Unit(Some(v), [])) == [v]
  {
    assert UsedAll([]) == [];
  }

  lemma {:induction false} OnEachOwns(g: Graph, vs: seq<nat>, t: nat)
    requires forall x <- vs :: x < |g| && g[x].rtype == t
    ensures OwnUnits(g, OnEach(vs)) == ListUnits(g, vs, t)
  {
    var us := OnEach(vs);
    if vs != [] {
      var l := |vs| - 1;
      assert forall x <- vs[..l] :: x in vs;
      OnEachOwns(g, vs[..l], t);
      assert us[..l] == OnEach(vs[..l]);
      assert vs[l] in vs;
    }
  }

  /** All units of type `t` in `S`, granted to a resource that asks for as many. */
  lemma AllOfType(g: Graph, s: nat, S: set<nat>, t: nat, us: seq<Unit>)
    requires us == OnEach(Listing(g, S, t, |g|))
    ensures PlacesOne(g, s, Resource(Pool(t), Units(g, S, t), []), us)
    ensures Used(us) == Listing(g, S, t, |g|)
  {
    var r, vs := Resource(Pool(t), Units(g, S, t), []), Listing(g, S, t, |g|);
    ListingListsAll(g, S, t, |g|);
    ListingUnits(g, S, t, |g|);
    OnEachUses(vs);
    OnEachOwns(g, vs, t);
    forall i | 0 <= i < |us|
      ensures PlacesUnit(g, s, r, us[i])
    {
      assert vs[i] in vs && UsedAll([]) == [];
    }
  }

  /** As many of `w` as it has units, each with all that is below it, and everything else besides. */
  lemma LargeInteriorIsDiscarded(g: Graph, s: nat, S: set<nat>, t: nat, w: nat)
    returns (rs: seq<Resource>, ps: seq<Grant>)
    requires w in S && w < |g| && !Thin(g, s, S, t, w)
    ensures HostedOn(g, s, rs, ps, S) && Demand(rs, t) > Units(g, S, t)
    ensures forall total: set<nat>, plan: Totals :: t in plan && t in total && plan[t] == Units(g, S, t)
              ==> !BySubplan(Some(plan), AllDemand(total, rs))
  {
    var under := Below(g, s, w) * S;
    var rest := S - under - {w};
    var m, k := Units(g, under, t), g[w].size;
    var each := Resource(Pool(t), m, []);
    var first, second := Resource(Pool(g[w].rtype), k, [each]), Resource(Pool(t), Units(g, rest, t), []);
    ps := FatIsHosted(g, s, S, t, w, under, first, second);
    rs := [first, second];
    DemandOfBoth(first, second, each, m, t);
    UnitsOfParts(g, S, under, w, t);
    TwiceIsMore(k, m);
    forall total: set<nat>, plan: Totals | t in plan && t in total && plan[t] == Units(g, S, t)
      ensures !BySubplan(Some(plan), AllDemand(total, rs))
    {
      AggregateIsDiscarded(total, plan, t, rs);
    }
  }

  lemma TwiceIsMore(k: nat, m: nat)
    requires k >= 2 && m >= 1
    ensures k * m > m
  {
    MulStep(k, m);
    assert (k - 1) * m >= 1;
  }

  lemma FatIsHosted(g: Graph, s: nat, S: set<nat>, t: nat, w: nat, under: set<nat>, first: Resource, second: Resource)
    returns (ps: seq<Grant>)
    requires w in S && w < |g| && under == Below(g, s, w) * S
    requires first == Resource(Pool(g[w].rtype), g[w].size, [Resource(Pool(t), Units(g, under, t), [])])
    requires second == Resource(Pool(t), Units(g, S - under - {w}, t), [])
    ensures HostedOn(g, s, [first, second], ps, S)
  {
    var rest := S - under - {w};
    var inner, outer := Listing(g, under, t, |g|), Listing(g, rest, t, |g|);
    var unit, others := Unit(Some(w), [Grant(OnEach(inner))]), OnEach(outer);
    ps := [Grant([unit]), Grant(others)];
    FirstPlaced(g, s, t, w, under, first, unit);
    AllOfType(g, s, rest, t, others);
    UsedByBoth(unit, w, inner, others, outer);
    PartsFit(g, S, t, w, under, inner, outer);
  }

  lemma PartsFit(g: Graph, S: set<nat>, t: nat, w: nat, under: set<nat>, inner: seq<nat>, outer: seq<nat>)
    requires w in S && w !in under && under <= S
    requires inner == Listing(g, under, t, |g|) && outer == Listing(g, S - under - {w}, t, |g|)
    ensures Distinct([w] + inner + outer) && forall x <- [w] + inner + outer :: x in S
  {
    ListingListsAll(g, under, t, |g|);
    ListingListsAll(g, S - under - {w}, t, |g|);
    DistinctAppend([w], inner);
    DistinctAppend([w] + inner, outer);
  }

  lemma FirstPlaced(g: Graph, s: nat, t: nat, w: nat, under: set<nat>, r: Resource, unit: Unit)
    requires w < |g| && under <= Below(g, s, w)
    requires r == Resource(Pool(g[w].rtype), g[w].size, [Resource(Pool(t), Units(g, under, t), [])])
    requires unit == Unit(Some(w), [Grant(OnEach(Listing(g, under, t, |g|)))])
    ensures PlacesOne(g, s, r, [unit]) && UsedAll(unit.below) == Listing(g, under, t, |g|)
  {
    var inner, us := Listing(g, under, t, |g|), unit.below[0].units;
    AllOfType(g, s, under, t, us);
    assert Places(g, s, r.with, unit.below);
    GrantSingle(us);
    AllBelowListed(g, s, t, w, under, inner);
    assert PlacesUnit(g, s, r, unit);
    OnlyOne(g, unit, g[w].size);
  }

  lemma AllBelowListed(g: Graph, s: nat, t: nat, w: nat, under: set<nat>, inner: seq<nat>)
    requires under <= Below(g, s, w) && inner == Listing(g, under, t, |g|)
    ensures AllBelow(g, s, w, inner)
  {
    ListingListsAll(g, under, t, |g|);
    forall i | 0 <= i < |inner|
      ensures inner[i] < |g| && inner[i] != w && Reaches(g, s, w, inner[i])
    {
      assert inner[i] in inner && inner[i] in under;
    }
  }

  lemma UsedByBoth(unit: Unit, w: nat, inner: seq<nat>, others: seq<Unit>, outer: seq<nat>)
    requires unit.at == Some(w) && UsedAll(unit.below) == inner && Used(others) == outer
    ensures UsedAll([Grant([unit]), Grant(others)]) == [w] + inner + outer
  {
    var ps := [Grant([unit]), Grant(others)];
    assert ps[..1] == [Grant([unit])] && [unit][..0] == [];
    GrantSingle([unit]);
  }

  lemma DemandOfBoth(first: Resource, second: Resource, each: Resource, m: nat, t: nat)
    requires each == Resource(Pool(t), m, []) && first.with == [each] && second.with == [] && second.kind == Pool(t)
    ensures Demand([first, second], t) == (if first.kind == Pool(t) then first.min else 0) + first.min * m + second.min
  {
    assert [first, second][..1] == [first];
    DemandSingle(first, t);
    DemandSingle(each, t);
    assert Demand([], t) == 0;
  }

  lemma UnitsOfParts(g: Graph, S: set<nat>, under: set<nat>, w: nat, t: nat)
    requires under <= S && w in S && w !in under && w < |g|
    ensures Units(g, S, t) == Units(g, under, t) + Units(g, S - under - {w}, t) + if g[w].rtype == t then g[w].size else 0
  {
    var rest := S - under - {w};
    UnitsSplit(g, under, rest + {w}, t, |g|);
    UnitsSplit(g, rest, {w}, t, |g|);
    UnitsOfOne(g, w, t, |g|);
    assert under + (rest + {w}) == S;
  }

  /** Over all requests and placements: a filter of type `t` covers what `S` hosts if and only if no vertex of
      `S` with two or more units has units of type `t` below it. */
  lemma CoversExactly(g: Graph, s: nat, S: set<nat>, t: nat)
    requires forall w :: w in S ==> w < |g|
    ensures Covers(g, s, S, t) <==> forall w :: w in S ==> Thin(g, s, S, t, w)
  {
    if Covers(g, s, S, t) {
      forall w | w in S
        ensures Thin(g, s, S, t, w)
      {
        if !Thin(g, s, S, t, w) {
          var rs, ps := LargeInteriorIsDiscarded(g, s, S, t, w);
        }
      }
    } else {
      var rs, ps :| HostedOn(g, s, rs, ps, S) && Demand(rs, t) > Units(g, S, t);
      if forall w :: w in S ==> Thin(g, s, S, t, w) {
        HostedIsCovered(g, s, S, t, rs, ps);
      }
    }
  }

  /** If the vertices below can host what is below `r`, then a filter holding their free units does
      not discard the vertex. */
  lemma FilterKeepsHosts(g: Graph, s: nat, total: set<nat>, with: seq<Resource>, userData: Totals,
                         ps: seq<Grant>, below: set<nat>, plan: Totals)
    requires Carries(total, with, userData) && HostedOn(g, s, with, ps, below)
    requires forall t, w :: t in plan && w in below ==> Thin(g, s, below, t, w)
    requires forall t <- plan :: plan[t] == Units(g, below, t)
    ensures BySubplan(Some(plan), userData)
  {
    forall t <- plan
      ensures Get(userData, t) <= plan[t]
    {
      HostedIsCovered(g, s, below, t, with, ps);
    }
  }

  /** A filter is safe if it discards no vertex below which the request could be hosted, whatever the request. */
  ghost predicate Safe(g: Graph, s: nat, total: set<nat>, v: nat, plan: Totals) {
    forall with: seq<Resource>, userData: Totals, ps: seq<Grant> ::
      Carries(total, with, userData) && HostedOn(g, s, with, ps, Below(g, s, v)) ==> BySubplan(Some(plan), userData)
  }

  /** A filter that holds the free units below `v` is safe if and only if no vertex below `v` with two or more
      units has units of one of the filter's types below it. */
  lemma SafeExactly(g: Graph, s: nat, total: set<nat>, v: nat, plan: Totals)
    requires plan.Keys <= total && forall t <- plan :: plan[t] == Units(g, Below(g, s, v), t)
    ensures Safe(g, s, total, v, plan)
            <==> forall t, w :: t in plan && w in Below(g, s, v) ==> Thin(g, s, Below(g, s, v), t, w)
  {
    var below := Below(g, s, v);
    if forall t, w :: t in plan && w in below ==> Thin(g, s, below, t, w) {
      forall with: seq<Resource>, userData: Totals, ps: seq<Grant> |
        Carries(total, with, userData) && HostedOn(g, s, with, ps, below)
        ensures BySubplan(Some(plan), userData)
      {
        FilterKeepsHosts(g, s, total, with, userData, ps, below, plan);
      }
    } else {
      var t, w :| t in plan && w in below && !Thin(g, s, below, t, w);
      var rs, ps := LargeInteriorIsDiscarded(g, s, below, t, w);
      AggregateIsDiscarded(total, plan, t, rs);
      assert Carries(total, rs, AllDemand(total, rs)) && HostedOn(g, s, rs, ps, below);
    }
  }

  ghost function AllDemand(total: set<nat>, rs: seq<Resource>): Totals {
    map t | t in total :: Demand(rs, t)
  }

  lemma AggregateIsDiscarded(total: set<nat>, plan: Totals, t: nat, rs: seq<Resource>)
    requires t in plan && t in total && Demand(rs, t) > plan[t]
    ensures Carries(total, rs, AllDemand(total, rs)) && !BySubplan(Some(plan), AllDemand(total, rs))
  {
    var m := AllDemand(total, rs);
    assert t in m && Get(m, t) > plan[t];
  }

  // ----- The filters that priming installs

  /** The order in which a walk from the root visits the vertices. */
  ghost function Order(g: Graph, s: nat, root: nat): seq<nat>
    requires ValidGraph(g) && root < |g|
  {
    Preorder(g, s, root, {})
  }

  /** A vertex with units of type `t` is passed over: it is not a leaf, the type was not configured, and no leaf of
      the type comes earlier. */
  ghost predicate PassedOver(g: Graph, s: nat, root: nat, initial: set<nat>, t: nat, x: nat)
    requires ValidGraph(g) && root < |g|
  {
    x < |g| && g[x].rtype == t && g[x].size > 0 && !Counts(g, initial, Earlier(Order(g, s, root), x), x)
  }

  ghost predicate Missed(g: Graph, s: nat, root: nat, initial: set<nat>, S: set<nat>, t: nat)
    requires ValidGraph(g) && root < |g|
  {
    exists x :: x in S && PassedOver(g, s, root, initial, t, x)
  }

  /** The walk counted, of the vertices of `S`, those that the order says. */
  ghost predicate CountedBy(g: Graph, s: nat, root: nat, initial: set<nat>, S: set<nat>, counted: set<nat>)
    requires ValidGraph(g) && root < |g|
  {
    forall x :: x in S ==> x < |g| && (x in counted <==> Counts(g, initial, Earlier(Order(g, s, root), x), x))
  }

  /** An installed filter is exact for a type if and only if no vertex below was passed over. */
  lemma FilterIsExact(g: Graph, s: nat, root: nat, initial: set<nat>, under: set<nat>, counted: set<nat>, plan: Totals,
                      t: nat)
    requires ValidGraph(g) && root < |g| && CountedBy(g, s, root, initial, under, counted)
    requires GoodPlan(g, plan, under * counted) && t in plan && Units(g, under, t) < TWO32
    ensures plan[t] <= Units(g, under, t)
    ensures plan[t] == Units(g, under, t) <==> !Missed(g, s, root, initial, under, t)
  {
    var kept, lost := under * counted, under - counted;
    UnitsSplit(g, kept, lost, t, |g|);
    assert kept + lost == under;
    KeptExact(Units(g, kept, t), plan[t]);
    if Missed(g, s, root, initial, under, t) {
      var x :| x in under && PassedOver(g, s, root, initial, t, x);
      SetHasUnit(g, lost, t, x, |g|);
    } else {
      forall x | x in lost && x < |g| && g[x].rtype == t
        ensures g[x].size == 0
      {
        assert !PassedOver(g, s, root, initial, t, x);
      }
      NothingLost(g, lost, t, |g|);
    }
  }

  lemma {:induction false} NothingLost(g: Graph, S: set<nat>, t: nat, n: nat)
    requires n <= |g| && forall x :: x in S && x < n && g[x].rtype == t ==> g[x].size == 0
    ensures UnitsUpTo(g, S, t, n) == 0
  {
    if n > 0 {
      NothingLost(g, S, t, n - 1);
    }
  }

  /** On a tree the filter of a visited vertex is about its proper descendants. */
  lemma UnderIsAllBelow(g: Graph, s: nat, root: nat, v: nat, visit: Visit)
    requires ValidGraph(g) && IsTree(g, s, root) && GoodVisit(g, s, root, v, visit)
    ensures visit.under == Below(g, s, v)
  {
    forall x
      ensures x in visit.under <==> x in Below(g, s, v)
    {
      UnderIsBelow(g, s, root, v, visit, x);
      if x != v && Reaches(g, s, v, x) {
        ReachedInGraph(g, s, v, x);
      }
    }
  }

  lemma ReachedInGraph(g: Graph, s: nat, v: nat, x: nat)
    requires ValidGraph(g) && x != v && Reaches(g, s, v, x)
    ensures x < |g|
  {
    var p :| IsPath(g, s, p) && p[0] == v && p[|p| - 1] == x;
    assert Linked(g, s, p[|p| - 2], p[|p| - 1]);
  }

  /** Nothing of type `t` below `v` is passed over, and no vertex of two or more units there has `t` below it. */
  ghost predicate Sound(g: Graph, s: nat, root: nat, initial: set<nat>, v: nat, t: nat)
    requires ValidGraph(g) && root < |g|
  {
    && !Missed(g, s, root, initial, Below(g, s, v), t)
    && forall w :: w in Below(g, s, v) ==> Thin(g, s, Below(g, s, v), t, w)
  }

  /** A filter of what was counted below `v`, with totals below 2^32, discards no host if and only if each of its
      types is sound. */
  lemma InstalledSafeExactly(g: Graph, s: nat, root: nat, initial: set<nat>, v: nat, counted: set<nat>, plan: Totals,
                             total: set<nat>)
    requires ValidGraph(g) && root < |g| && CountedBy(g, s, root, initial, Below(g, s, v), counted)
    requires GoodPlan(g, plan, Below(g, s, v) * counted) && plan.Keys <= total
    requires forall t <- plan :: Units(g, Below(g, s, v), t) < TWO32
    ensures Safe(g, s, total, v, plan) <==> forall t <- plan :: Sound(g, s, root, initial, v, t)
  {
    var below := Below(g, s, v);
    if t :| t in plan && Missed(g, s, root, initial, below, t) {
      FilterIsExact(g, s, root, initial, below, counted, plan, t);
      AllIsDiscarded(g, s, total, v, plan, t);
    } else {
      forall t <- plan
        ensures plan[t] == Units(g, below, t)
      {
        FilterIsExact(g, s, root, initial, below, counted, plan, t);
      }
      SafeExactly(g, s, total, v, plan);
    }
  }

  /** A filter that holds less than there is discards the request for all of it. */
  lemma AllIsDiscarded(g: Graph, s: nat, total: set<nat>, v: nat, plan: Totals, t: nat)
    requires t in plan && t in total && plan[t] < Units(g, Below(g, s, v), t)
    ensures !Safe(g, s, total, v, plan)
  {
    var below := Below(g, s, v);
    var rs, ps := AllIsHosted(g, s, below, t);
    AggregateIsDiscarded(total, plan, t, rs);
    assert Carries(total, rs, AllDemand(total, rs)) && HostedOn(g, s, rs, ps, below);
  }

  lemma AllIsHosted(g: Graph, s: nat, S: set<nat>, t: nat) returns (rs: seq<Resource>, ps: seq<Grant>)
    ensures HostedOn(g, s, rs, ps, S) && Demand(rs, t) == Units(g, S, t)
  {
    var us, r := OnEach(Listing(g, S, t, |g|)), Resource(Pool(t), Units(g, S, t), []);
    rs, ps := [r], [Grant(us)];
    AllOfType(g, s, S, t, us);
    GrantSingle(us);
    ListingListsAll(g, S, t, |g|);
    DemandSingle(r, t);
    assert Demand([], t) == 0;
  }

  // ----- Conditions that do not mention the order

  /** A type that was configured, or that only leaves have, is never passed over. */
  lemma TrackedIsNotMissed(g: Graph, s: nat, root: nat, initial: set<nat>, S: set<nat>, t: nat)
    requires ValidGraph(g) && root < |g| && Tracked(g, initial, t)
    ensures !Missed(g, s, root, initial, S, t)
  {}

  /** In a tree an inner vertex above every leaf of its type is passed over in every order. */
  lemma AboveItsLeavesIsPassedOver(g: Graph, s: nat, root: nat, initial: set<nat>, x: nat, visit: Visit)
    requires ValidGraph(g) && root < |g| && IsTree(g, s, root) && GoodVisit(g, s, root, x, visit)
    requires visit.before == Earlier(Order(g, s, root), x)
    requires x < |g| && g[x].out != [] && g[x].size > 0 && g[x].rtype !in initial
    requires forall y :: 0 <= y < |g| && g[y].out == [] && g[y].rtype == g[x].rtype ==> Reaches(g, s, x, y)
    ensures PassedOver(g, s, root, initial, g[x].rtype, x)
  {
    if g[x].rtype in LeafTypes(g, visit.before) {
      var y :| y in visit.before && y < |g| && g[y].out == [] && g[y].rtype == g[x].rtype;
      var p :| IsPath(g, s, p) && p[0] == x && p[|p| - 1] == y;
      AncestorsAreBefore(g, s, root, p, visit.before);
    }
  }

  lemma {:induction false} AncestorsAreBefore(g: Graph, s: nat, root: nat, p: seq<nat>, B: set<nat>)
    requires IsTree(g, s, root) && Rooted(g, s, root, B) && IsPath(g, s, p) && p[|p| - 1] in B
    ensures p[0] in B
    decreases |p|
  {
    var l := |p| - 1;
    if l > 0 {
      assert Linked(g, s, p[l - 1], p[l]);
      assert FoundFrom(g, s, B, p[l]);
      assert p[..l][l - 1] == p[l - 1];
      AncestorsAreBefore(g, s, root, p[..l], B);
    }
  }

  /** A filter whose types were tracked from the start keeps every host, on a tree whose totals stay below 2^32. */
  lemma PrimedFilterKeepsHosts(g: Graph, s: nat, root: nat, initial: set<nat>, v: nat, counted: set<nat>, plan: Totals,
                               total: set<nat>, with: seq<Resource>, userData: Totals, ps: seq<Grant>)
    requires ValidGraph(g) && root < |g| && CountedBy(g, s, root, initial, Below(g, s, v), counted)
    requires GoodPlan(g, plan, Below(g, s, v) * counted) && plan.Keys <= total
    requires forall t <- plan :: Units(g, Below(g, s, v), t) < TWO32 && Tracked(g, initial, t)
    requires forall t, w :: t in plan && w in Below(g, s, v) ==> Thin(g, s, Below(g, s, v), t, w)
    requires Carries(total, with, userData) && HostedOn(g, s, with, ps, Below(g, s, v))
    ensures BySubplan(Some(plan), userData)
  {
    forall t <- plan
      ensures Sound(g, s, root, initial, v, t)
    {
      TrackedIsNotMissed(g, s, root, initial, Below(g, s, v), t);
    }
    InstalledSafeExactly(g, s, root, initial, v, counted, plan, total);
  }

  // ----- Priming the graph and the request

  ghost predicate SmallTotals(g: Graph, s: nat, v: nat, plan: Totals) {
    forall t <- plan :: Units(g, Below(g, s, v), t) < TWO32
  }

  /** On a tree the filter of `v`, if its totals are small, is safe if and only if its types are sound. */
  ghost predicate SafeIfSound(g: Graph, s: nat, root: nat, initial: set<nat>, total: set<nat>, v: nat, plan: Totals)
    requires ValidGraph(g) && root < |g|
  {
    SmallTotals(g, s, v, plan) ==>
      (Safe(g, s, total, v, plan) <==> forall t <- plan :: Sound(g, s, root, initial, v, t))
  }

  /** On any graph the filter holds, for a type with a small total, all that was found below `v` if and only if
      nothing of the type was passed over there. */
  ghost predicate ExactIfNoneMissed(g: Graph, s: nat, root: nat, initial: set<nat>, v: nat, plan: Totals)
    requires ValidGraph(g) && root < |g| && v < |g|
  {
    var under := Elements(Preorder(g, s, v, Earlier(Order(g, s, root), v))) - {v};
    forall t <- plan :: Units(g, under, t) < TWO32 ==>
      (plan[t] == Units(g, under, t) <==> !Missed(g, s, root, initial, under, t))
  }

  /** Priming the graph and the request: what the filters hold, and exactly which of them never discard a vertex
      below which what a request asks for could be hosted. */
  method PrimeGraphAndRequest(walk: Walk, rs: seq<Resource>) returns (primed: seq<Primed>)
    requires walk.Valid() && walk.subplans == map[]
    modifies walk
    ensures walk.Valid() && Annotates(walk.total, rs, primed)
    ensures forall v <- walk.subplans :: v < |walk.g| &&
              ExactIfNoneMissed(walk.g, walk.s, walk.root, old(walk.total), v, walk.subplans[v])
    ensures IsTree(walk.g, walk.s, walk.root) ==> forall v <- walk.subplans ::
              SafeIfSound(walk.g, walk.s, walk.root, old(walk.total), walk.total, v, walk.subplans[v])
  {
    ghost var initial := walk.total;
    ghost var V;
    var totals, toParent;
    totals, V := walk.Initialize();
    primed, toParent := PrimeJobspec(walk.total, rs);
    forall v <- walk.subplans
      ensures v < |walk.g| && ExactIfNoneMissed(walk.g, walk.s, walk.root, initial, v, walk.subplans[v])
      ensures IsTree(walk.g, walk.s, walk.root) ==>
                SafeIfSound(walk.g, walk.s, walk.root, initial, walk.total, v, walk.subplans[v])
    {
      FilterMeans(walk.g, walk.s, walk.root, walk.State(), V, v);
    }
  }

  lemma WalkCounts(g: Graph, s: nat, root: nat, b: Snap, V: set<nat>, S: set<nat>)
    requires ValidGraph(g) && root < |g| && b.visits == Order(g, s, root) && AllRecorded(g, s, root, b, V) && S <= V
    ensures CountedBy(g, s, root, b.setup.total, S, b.counted)
  {
    forall x | x in S
      ensures x < |g| && (x in b.counted <==> Counts(g, b.setup.total, Earlier(Order(g, s, root), x), x))
    {
      assert Record(g, s, root, b, x);
    }
  }

  lemma FilterMeans(g: Graph, s: nat, root: nat, b: Snap, V: set<nat>, v: nat)
    requires ValidGraph(g) && root < |g| && b.visits == Order(g, s, root)
    requires forall x :: x in V <==> Reaches(g, s, root, x)
    requires AllRecorded(g, s, root, b, V) && AllInstalled(g, b, V) && v in b.subplans
    ensures v < |g| && ExactIfNoneMissed(g, s, root, b.setup.total, v, b.subplans[v])
    ensures IsTree(g, s, root) ==> SafeIfSound(g, s, root, b.setup.total, b.total, v, b.subplans[v])
  {
    assert Installed(g, b, v) && Record(g, s, root, b, v);
    var under, plan := b.log[v].under, b.subplans[v];
    forall x <- under
      ensures x in V
    {
      ReachesThrough(g, s, root, v, x);
    }
    WalkCounts(g, s, root, b, V, under);
    forall t <- plan | Units(g, under, t) < TWO32
      ensures plan[t] == Units(g, under, t) <==> !Missed(g, s, root, b.setup.total, under, t)
    {
      FilterIsExact(g, s, root, b.setup.total, under, b.counted, plan, t);
    }
    if IsTree(g, s, root) {
      UnderIsAllBelow(g, s, root, v, b.log[v]);
      if SmallTotals(g, s, v, plan) {
        InstalledSafeExactly(g, s, root, b.setup.total, v, b.counted, plan, b.total);
      }
    }
  }

  lemma ReachesThrough(g: Graph, s: nat, u: nat, v: nat, w: nat)
    requires Reaches(g, s, u, v) && Reaches(g, s, v, w)
    ensures Reaches(g, s, u, w)
  {
    var p :| IsPath(g, s, p) && p[0] == u && p[|p| - 1] == v;
    var q :| IsPath(g, s, q) && q[0] == v && q[|q| - 1] == w;
    var r := p + q[1..];
    assert IsPath(g, s, r) && r[0] == u && r[|r| - 1] == w;
  }

  lemma OnlyOne(g: Graph, u: Unit, size: nat)
    requires u.at.Some? && u.at.value < |g| && g[u.at.value].size == size
    ensures OwnUnits(g, [u]) == size
  {
    assert [u][..0] == [];
  }

  lemma GrantSingle(us: seq<Unit>)
    ensures UsedAll([Grant(us)]) == Used(us)
  {
    assert [Grant(us)][..0] == [];
  }

  lemma DemandSingle(r: Resource, t: nat)
    ensures Demand([r], t) == DemandOne(r, t)
  {
    assert [r][..0] == [];
  }

  // ----- An inner vertex of type 5 above the only leaf of type 5: the filter of the root counts one unit of two

  const CHAIN: Graph := [Vertex(0, 1, [Edge(1, 0)]), Vertex(5, 1, [Edge(2, 0)]), Vertex(5, 1, [])]

  lemma ChainLinks(p: nat, x: nat)
    ensures Linked(CHAIN, 0, p, x) <==> (p == 0 && x == 1) || (p == 1 && x == 2)
  {
    assert CHAIN[0].out == [Edge(1, 0)] && CHAIN[1].out == [Edge(2, 0)] && CHAIN[2].out == [];
  }

  lemma ChainIsTree()
    ensures ValidGraph(CHAIN) && IsTree(CHAIN, 0, 0)
  {
    forall p, x | Linked(CHAIN, 0, p, x)
      ensures x == p + 1
    {
      ChainLinks(p, x);
    }
  }

  lemma ChainBelow()
    ensures Below(CHAIN, 0, 0) == {1, 2} && Reaches(CHAIN, 0, 1, 2)
  {
    ChainLinks(0, 1);
    ChainLinks(1, 2);
    ReachesSelf(CHAIN, 0, 1);
    ReachesSelf(CHAIN, 0, 2);
    ReachesStep(CHAIN, 0, 1, 2, 2);
    ReachesStep(CHAIN, 0, 0, 1, 1);
    ReachesStep(CHAIN, 0, 0, 1, 2);
  }

  lemma ChainTotals()
    ensures Units(CHAIN, {1, 2}, 5) == 2 && Units(CHAIN, {2}, 5) == 1
  {
    assert CHAIN[1] == Vertex(5, 1, [Edge(2, 0)]) && CHAIN[2] == Vertex(5, 1, []);
    UnitsOfOne(CHAIN, 1, 5, 3);
    UnitsOfOne(CHAIN, 2, 5, 3);
    UnitsSplit(CHAIN, {1}, {2}, 5, 3);
    assert {1} + {2} == {1, 2};
  }

  /** What any walk over the chain that started without pruning types has left at its root. */
  lemma ChainFilter(b: Snap, V: set<nat>)
    requires ValidGraph(CHAIN) && b.setup == Setup({}, map[], 0, 9) && b.visits == Order(CHAIN, 0, 0)
    requires forall x :: x in V <==> Reaches(CHAIN, 0, 0, x)
    requires AllRecorded(CHAIN, 0, 0, b, V) && AllInstalled(CHAIN, b, V)
    ensures 0 in b.subplans && 5 in b.subplans[0] && b.subplans[0][5] == 1 && 5 in b.total
  {
    ChainIsTree();
    ChainBelow();
    ChainTotals();
    ReachesSelf(CHAIN, 0, 0);
    assert 1 in Below(CHAIN, 0, 0) && 2 in Below(CHAIN, 0, 0);
    assert Record(CHAIN, 0, 0, b, 0) && Record(CHAIN, 0, 0, b, 1) && Record(CHAIN, 0, 0, b, 2);
    assert Installed(CHAIN, b, 0);
    UnderIsAllBelow(CHAIN, 0, 0, 0, b.log[0]);
    ChainTypes(b);
    ChainMissed(b);
    assert {1, 2} * b.counted == {2};
    KeptExact(Units(CHAIN, {2}, 5), b.subplans[0][5]);
  }

  lemma ChainTypes(b: Snap)
    requires b.setup == Setup({}, map[], 0, 9) && 0 in b.log && b.log[0].under == {1, 2}
    ensures 5 in TypesAt(CHAIN, b.setup, 0, b.log[0])
  {
    assert CHAIN[2] == Vertex(5, 1, []) && CHAIN[0].out != [];
    var S := b.log[0].before + b.log[0].under;
    assert 2 in S && 5 in LeafTypes(CHAIN, S);
    assert 5 in Anchored(b.setup, b.setup.total + LeafTypes(CHAIN, S), 0);
  }

  lemma ChainMissed(b: Snap)
    requires ValidGraph(CHAIN) && IsTree(CHAIN, 0, 0) && Reaches(CHAIN, 0, 1, 2) && b.setup.total == {}
    requires b.visits == Order(CHAIN, 0, 0) && Record(CHAIN, 0, 0, b, 1) && Record(CHAIN, 0, 0, b, 2)
    ensures 1 !in b.counted && 2 in b.counted
  {
    assert CHAIN[1] == Vertex(5, 1, [Edge(2, 0)]) && CHAIN[2] == Vertex(5, 1, []) && CHAIN[0].rtype == 0;
    AboveItsLeavesIsPassedOver(CHAIN, 0, 0, {}, 1, b.log[1]);
  }

  /** Priming the chain and a request for two units of type 5 below the root: they can be hosted there, and the
      filter that the walk installed discards the root. */
  method LateTypeIsDiscarded() returns (plan: Option<Totals>, userData: Totals)
    ensures HostedOn(CHAIN, 0, [Resource(Pool(5), 2, [])], [Grant(OnEach([1, 2]))], Below(CHAIN, 0, 0))
    ensures !BySubplan(plan, userData)
  {
    ChainIsTree();
    ChainBelow();
    var r := Resource(Pool(5), 2, []);
    ChainIsHosted(r);
    var walk := new Walk(CHAIN, 0, 0, 0, 9, {}, map[]);
    ghost var V;
    var totals, primed, toParent;
    totals, V := walk.Initialize();
    ChainFilter(walk.State(), V);
    primed, toParent := PrimeJobspec(walk.total, [Resource(Pool(0), 1, [r])]);
    plan, userData := Some(walk.subplans[0]), primed[0].userData;
    DemandSingle(r, 5);
    assert Demand([], 5) == 0;
    assert Carries(walk.total, [r], userData);
    KeptExact(Demand([r], 5), Get(userData, 5));
    assert Get(userData, 5) > plan.value[5];
  }

  lemma ChainIsHosted(r: Resource)
    requires r == Resource(Pool(5), 2, []) && Below(CHAIN, 0, 0) == {1, 2}
    ensures HostedOn(CHAIN, 0, [r], [Grant(OnEach([1, 2]))], Below(CHAIN, 0, 0))
  {
    var us, vs := OnEach([1, 2]), [1, 2];
    OnEachUses(vs);
    GrantSingle(us);
    ChainIsPlaced(r, us);
  }

  lemma ChainIsPlaced(r: Resource, us: seq<Unit>)
    requires r == Resource(Pool(5), 2, []) && us == [Unit(Some(1), []), Unit(Some(2), [])]
    ensures PlacesOne(CHAIN, 0, r, us)
  {
    assert UsedAll([]) == [];
    assert CHAIN[1] == Vertex(5, 1, [Edge(2, 0)]) && CHAIN[2] == Vertex(5, 1, []);
    assert PlacesUnit(CHAIN, 0, r, us[0]) && PlacesUnit(CHAIN, 0, r, us[1]);
    assert us[..1] == [us[0]];
    OnlyOne(CHAIN, us[0], 1);
  }
}
