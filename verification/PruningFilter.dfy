/** The coloured depth-first walk that primes the pruning filters of a resource graph
    (resource/traversers/dfu_impl.cpp, resource/schema/color.cpp). */
module PruningFilter {

  // ----- The graph

  datatype Edge = Edge(target: nat, subsystem: nat)

  /** A resource pool: its type, its size and its out-edges in every subsystem. */
  datatype Vertex = Vertex(rtype: nat, size: nat, out: seq<Edge>)

  type Graph = seq<Vertex>

  const TWO32: nat := 0x1_0000_0000

  ghost predicate ValidGraph(g: Graph) {
    forall v :: 0 <= v < |g| ==>
      g[v].size < TWO32 && forall i :: 0 <= i < |g[v].out| ==> g[v].out[i].target < |g|
  }

  /** There is an edge of subsystem `s` from `v` to `w`. */
  ghost predicate Linked(g: Graph, s: nat, v: nat, w: nat) {
    v < |g| && Edge(w, s) in g[v].out
  }

  ghost predicate IsPath(g: Graph, s: nat, p: seq<nat>) {
    p != [] && forall i :: 0 <= i < |p| - 1 ==> Linked(g, s, p[i], p[i + 1])
  }

  ghost predicate Reaches(g: Graph, s: nat, v: nat, w: nat) {
    exists p :: IsPath(g, s, p) && p[0] == v && p[|p| - 1] == w
  }

  lemma ReachesSelf(g: Graph, s: nat, v: nat)
    ensures Reaches(g, s, v, v)
  {
    assert IsPath(g, s, [v]);
  }

  lemma ReachesStep(g: Graph, s: nat, u: nat, v: nat, w: nat)
    requires Linked(g, s, u, v) && Reaches(g, s, v, w)
    ensures Reaches(g, s, u, w)
  {
    var p :| IsPath(g, s, p) && p[0] == v && p[|p| - 1] == w;
    var q := [u] + p;
    assert IsPath(g, s, q) && q[0] == u && q[|q| - 1] == w;
  }

  /** The units of type `t` on the vertices of `S`. */
  ghost function Units(g: Graph, S: set<nat>, t: nat): nat {
    UnitsUpTo(g, S, t, |g|)
  }

  ghost function UnitsUpTo(g: Graph, S: set<nat>, t: nat, n: nat): nat
    requires n <= |g|
  {
    if n == 0 then 0
    else UnitsUpTo(g, S, t, n - 1) + (if n - 1 in S && g[n - 1].rtype == t then g[n - 1].size else 0)
  }

  lemma {:induction false} UnitsSplit(g: Graph, A: set<nat>, B: set<nat>, t: nat, n: nat)
    requires A !! B && n <= |g|
    ensures UnitsUpTo(g, A + B, t, n) == UnitsUpTo(g, A, t, n) + UnitsUpTo(g, B, t, n)
  {
    if n > 0 {
      UnitsSplit(g, A, B, t, n - 1);
    }
  }

  lemma {:induction false} UnitsOfNone(g: Graph, t: nat, n: nat)
    requires n <= |g|
    ensures UnitsUpTo(g, {}, t, n) == 0
  {
    if n > 0 {
      UnitsOfNone(g, t, n - 1);
    }
  }

  lemma {:induction false} UnitsOfOne(g: Graph, v: nat, t: nat, n: nat)
    requires n <= |g|
    ensures UnitsUpTo(g, {v}, t, n) == if v < n && g[v].rtype == t then g[v].size else 0
  {
    if n > 0 {
      UnitsOfOne(g, v, t, n - 1);
    }
  }

  // ----- Totals pass through 32-bit parameters

  /** `got` is what is left of `sum` after truncations: nothing is lost below 2^32. */
  ghost predicate Kept(sum: nat, got: int) {
    0 <= got <= sum && (sum - got) % TWO32 == 0
  }

  lemma KeptExact(sum: nat, got: int)
    requires Kept(sum, got) && sum < TWO32
    ensures got == sum
  {}

  lemma KeptSum(s1: nat, g1: int, s2: nat, g2: int)
    requires Kept(s1, g1) && Kept(s2, g2)
    ensures Kept(s1 + s2, g1 + g2)
  {}

  lemma KeptTruncated(sum: nat, got: nat)
    requires Kept(sum, got)
    ensures Kept(sum, got % TWO32)
  {}

  type Totals = map<nat, nat>

  function Get(m: Totals, t: nat): nat {
    if t in m then m[t] else 0
  }

  /** `after` is `before` plus the units of `S`, up to truncation. */
  ghost predicate Adds(g: Graph, S: set<nat>, before: Totals, after: Totals) {
    forall t: nat {:trigger AddsOf(g, S, before, after, t)} :: AddsOf(g, S, before, after, t)
  }

  ghost predicate AddsOf(g: Graph, S: set<nat>, before: Totals, after: Totals, t: nat) {
    Kept(Units(g, S, t), Get(after, t) - Get(before, t))
  }

  lemma AddsNothing(g: Graph, m: Totals)
    ensures Adds(g, {}, m, m)
  {
    forall t: nat
      ensures AddsOf(g, {}, m, m, t)
    {
      UnitsOfNone(g, t, |g|);
    }
  }

  lemma AddsBoth(g: Graph, A: set<nat>, B: set<nat>, m0: Totals, m1: Totals, m2: Totals)
    requires A !! B && Adds(g, A, m0, m1) && Adds(g, B, m1, m2)
    ensures Adds(g, A + B, m0, m2)
  {
    forall t: nat
      ensures AddsOf(g, A + B, m0, m2, t)
    {
      assert AddsOf(g, A, m0, m1, t) && AddsOf(g, B, m1, m2, t);
      UnitsSplit(g, A, B, t, |g|);
      KeptSum(Units(g, A, t), Get(m1, t) - Get(m0, t), Units(g, B, t), Get(m2, t) - Get(m1, t));
    }
  }

  // ----- Colours: a new base turns every colour handed out so far white

  /** color_t */
  datatype Palette = Palette(base: nat) {

    function Reset(): Palette {
      Palette(base + 3)
    }

    predicate IsWhite(c: nat) {
      c <= base
    }

    predicate IsGray(c: nat) {
      c == base + 1
    }

    predicate IsBlack(c: nat) {
      c == base + 2
    }

    function Gray(): nat {
      base + 1
    }

    function Black(): nat {
      base + 2
    }
  }

  /** Exactly the vertices of `seen` are gray or black. */
  ghost predicate AllShaded(n: nat, p: Palette, colors: map<nat, nat>, seen: set<nat>) {
    forall v {:trigger Shaded(n, p, colors, seen, v)} :: Shaded(n, p, colors, seen, v)
  }

  ghost predicate Shaded(n: nat, p: Palette, colors: map<nat, nat>, seen: set<nat>, v: nat) {
    && (v in colors ==> v < n && colors[v] <= p.base + 2)
    && (v in seen <==> v in colors && !p.IsWhite(colors[v]))
  }

  lemma Paint(n: nat, p: Palette, colors: map<nat, nat>, seen: set<nat>, u: nat, c: nat)
    requires AllShaded(n, p, colors, seen) && u < n && (p.IsGray(c) || p.IsBlack(c))
    ensures AllShaded(n, p, colors[u := c], seen + {u})
  {
    var after, more := colors[u := c], seen + {u};
    forall v
      ensures Shaded(n, p, after, more, v)
    {
      assert Shaded(n, p, colors, seen, v);
    }
  }

  /** A new base turns every vertex white. */
  lemma FreshColour(n: nat, p: Palette, colors: map<nat, nat>, seen: set<nat>)
    requires AllShaded(n, p, colors, seen)
    ensures AllShaded(n, p.Reset(), colors, {})
  {
    var q, none: set<nat> := p.Reset(), {};
    forall v
      ensures Shaded(n, q, colors, none, v)
    {
      assert Shaded(n, p, colors, seen, v);
    }
  }

  // ----- Depth-first order

  ghost function Uncoloured(g: Graph, seen: set<nat>): set<nat> {
    (set v {:trigger g[v]} | 0 <= v < |g|) - seen
  }

  ghost function Elements(xs: seq<nat>): set<nat> {
    set x | x in xs
  }

  /** The vertices found from `u`, itself first, while those of `seen` are passed over. */
  ghost function Preorder(g: Graph, s: nat, u: nat, seen: set<nat>): seq<nat>
    requires ValidGraph(g) && u < |g| && u !in seen
    decreases Uncoloured(g, seen), 0, 0
  {
    assert u in Uncoloured(g, seen) && u !in Uncoloured(g, seen + {u});
    [u] + Children(g, s, u, 0, seen + {u})
  }

  /** Those found over the edges of `u` from the i-th on. */
  ghost function Children(g: Graph, s: nat, u: nat, i: nat, seen: set<nat>): seq<nat>
    requires ValidGraph(g) && u < |g| && i <= |g[u].out|
    decreases Uncoloured(g, seen), 1, |g[u].out| - i
  {
    if i == |g[u].out| then []
    else if g[u].out[i].subsystem == s && g[u].out[i].target !in seen then
      var first := Preorder(g, s, g[u].out[i].target, seen);
      var later := seen + Elements(first);
      assert Uncoloured(g, later) <= Uncoloured(g, seen);
      first + Children(g, s, u, i + 1, later)
    else Children(g, s, u, i + 1, seen)
  }

  /** The vertices listed before the first `v`. */
  ghost function Earlier(order: seq<nat>, v: nat): (r: set<nat>)
    ensures v !in r
  {
    if order == [] || order[0] == v then {} else {order[0]} + Earlier(order[1..], v)
  }

  lemma {:induction false} EarlierKept(order: seq<nat>, more: seq<nat>, v: nat)
    requires v in order
    ensures Earlier(order + more, v) == Earlier(order, v)
  {
    if order[0] != v {
      assert (order + more)[1..] == order[1..] + more;
      EarlierKept(order[1..], more, v);
    }
  }

  lemma {:induction false} EarlierIsAll(order: seq<nat>, v: nat)
    requires v !in order
    ensures Earlier(order + [v], v) == Elements(order)
  {
    if order == [] {
      assert order + [v] == [v];
    } else {
      assert (order + [v])[1..] == order[1..] + [v];
      EarlierIsAll(order[1..], v);
      assert Elements(order) == {order[0]} + Elements(order[1..]);
    }
  }

  // ----- Pruning types

  function Of(anchors: map<nat, set<nat>>, anchor: nat): set<nat> {
    if anchor in anchors then anchors[anchor] else {}
  }

  /** What is configured before a walk: the pruning types, in all and for each anchor type, the type that leaf
      types are anchored to, and the type that stands for every anchor. */
  datatype Setup = Setup(total: set<nat>, anchors: map<nat, set<nat>>, cluster: nat, any: nat)

  /** m_total_set and m_pruning_types are filled together. */
  ghost predicate GoodSetup(u: Setup) {
    forall k :: Of(u.anchors, k) <= u.total
  }

  /** The types of an anchor when `total` are the pruning types. */
  ghost function Anchored(u: Setup, total: set<nat>, anchor: nat): set<nat> {
    Of(u.anchors, anchor) + if anchor == u.cluster then total - u.total else {}
  }

  /** The types of the filter that a vertex of type `anchor` gets then. */
  ghost function FilterTypes(u: Setup, total: set<nat>, anchor: nat): set<nat> {
    Anchored(u, total, anchor) + if anchor != u.any then Anchored(u, total, u.any) - {anchor} else {}
  }

  ghost function LeafTypes(g: Graph, S: set<nat>): set<nat> {
    set v | v in S && v < |g| && g[v].out == [] :: g[v].rtype
  }

  /** Whether the size of `v` is accumulated: it is a leaf, its type was configured, or a leaf of its type was
      visited before it. */
  ghost predicate Counts(g: Graph, total: set<nat>, before: set<nat>, v: nat)
    requires v < |g|
  {
    g[v].out == [] || g[v].rtype in total + LeafTypes(g, before)
  }

  /** What the walk saw at one vertex: the vertices coloured before it, and those coloured below it. */
  datatype Visit = Visit(before: set<nat>, under: set<nat>)

  /** Every coloured vertex other than the root was found over an edge from a coloured one. */
  ghost predicate Rooted(g: Graph, s: nat, root: nat, B: set<nat>) {
    forall x {:trigger FoundFrom(g, s, B, x)} :: x in B ==> x == root || FoundFrom(g, s, B, x)
  }

  ghost predicate FoundFrom(g: Graph, s: nat, B: set<nat>, x: nat) {
    exists p <- B :: Linked(g, s, p, x)
  }

  /** Every edge out of `S` leads into `S` or `B`. */
  ghost predicate Closed(g: Graph, s: nat, S: set<nat>, B: set<nat>) {
    forall x, y :: x in S && Linked(g, s, x, y) ==> y in S + B
  }

  ghost predicate GoodVisit(g: Graph, s: nat, root: nat, v: nat, visit: Visit) {
    && v !in visit.before && v !in visit.under && visit.before !! visit.under
    && Rooted(g, s, root, visit.before)
    && Closed(g, s, visit.under + {v}, visit.before)
    && forall x <- visit.under :: Reaches(g, s, v, x)
  }

  /** A filter holds, for each of its types, the units counted below its vertex. */
  ghost predicate GoodPlan(g: Graph, plan: Totals, below: set<nat>) {
    forall t <- plan :: Kept(Units(g, below, t), plan[t])
  }

  /** The parts of the walk's state that its progress is described by. */
  datatype Snap = Snap(setup: Setup, seen: set<nat>, total: set<nat>, counted: set<nat>, log: map<nat, Visit>,
                       subplans: map<nat, Totals>, visits: seq<nat>)

  /** The pruning types are those configured and those of the leaves seen. */
  ghost predicate Steady(g: Graph, a: Snap) {
    a.counted <= a.seen && Typed(g, a.setup.total, a.total, a.visits, a.seen)
  }

  ghost predicate Typed(g: Graph, initial: set<nat>, total: set<nat>, visits: seq<nat>, seen: set<nat>) {
    forall S {:trigger TypedBy(g, initial, total, visits, S)} :: S == seen ==> TypedBy(g, initial, total, visits, S)
  }

  ghost predicate TypedBy(g: Graph, initial: set<nat>, total: set<nat>, visits: seq<nat>, S: set<nat>) {
    total == initial + LeafTypes(g, S) && S == Elements(visits)
  }

  lemma SteadyMeans(g: Graph, a: Snap)
    ensures Steady(g, a) <==>
              a.counted <= a.seen && a.total == a.setup.total + LeafTypes(g, a.seen) && a.seen == Elements(a.visits)
  {
    if a.total == a.setup.total + LeafTypes(g, a.seen) && a.seen == Elements(a.visits) {
      assert TypedBy(g, a.setup.total, a.total, a.visits, a.seen);
    }
    assert Steady(g, a) ==> TypedBy(g, a.setup.total, a.total, a.visits, a.seen);
  }

  /** The types of the filter of `v`, known when it is left. */
  ghost function TypesAt(g: Graph, u: Setup, v: nat, visit: Visit): set<nat>
    requires v < |g|
  {
    if g[v].out == [] then {}
    else FilterTypes(u, u.total + LeafTypes(g, visit.before + visit.under), g[v].rtype)
  }

  ghost predicate SameFilter(a: Snap, b: Snap, v: nat) {
    (v in a.subplans <==> v in b.subplans) && (v in a.subplans ==> b.subplans[v] == a.subplans[v])
  }

  /** The filter of a visited vertex is new, and has its types and what was counted below, or it is untouched. */
  ghost predicate Filtered(g: Graph, a: Snap, b: Snap, v: nat)
    requires v < |g| && v in b.log
  {
    var types := TypesAt(g, b.setup, v, b.log[v]);
    if types == {} then SameFilter(a, b, v)
    else v in b.subplans && b.subplans[v].Keys == types && GoodPlan(g, b.subplans[v], b.log[v].under * b.counted)
  }

  /** What was coloured below `v` is what depth-first order finds. */
  ghost predicate Found(g: Graph, s: nat, v: nat, visit: Visit)
    requires ValidGraph(g) && v < |g|
  {
    v !in visit.before && visit.under == Elements(Preorder(g, s, v, visit.before)) - {v}
  }

  /** What holds of a vertex `v` that the walk visited between `a` and `b`, as one of `V`. */
  ghost predicate Visited(g: Graph, s: nat, root: nat, a: Snap, b: Snap, V: set<nat>, v: nat)
    requires ValidGraph(g)
  {
    && v < |g| && v in b.log && v in b.visits
    && b.log[v].before == Earlier(b.visits, v)
    && b.log[v].under <= V && GoodVisit(g, s, root, v, b.log[v]) && Found(g, s, v, b.log[v])
    && (v in b.counted <==> Counts(g, b.setup.total, b.log[v].before, v))
    && Filtered(g, a, b, v)
  }

  /** Nothing about the vertices outside `V` changed between `a` and `b`. */
  ghost predicate OthersKept(a: Snap, b: Snap, V: set<nat>) {
    && a.setup == b.setup && a.visits <= b.visits
    && (forall v <- a.log :: v !in V ==> v in b.log && b.log[v] == a.log[v])
    && (forall v {:trigger SameFilter(a, b, v)} :: v !in V ==> SameFilter(a, b, v))
    && a.counted <= b.counted <= a.counted + V
  }

  /** Between `a` and `b` the walk visited exactly the vertices of `V`, each once, and left
      everything about other vertices alone. */
  ghost predicate Grew(g: Graph, s: nat, root: nat, a: Snap, b: Snap, V: set<nat>)
    requires ValidGraph(g)
  {
    forall W {:trigger GrewBy(g, s, root, a, b, W)} :: W == V ==> GrewBy(g, s, root, a, b, W)
  }

  ghost predicate GrewBy(g: Graph, s: nat, root: nat, a: Snap, b: Snap, V: set<nat>)
    requires ValidGraph(g)
  {
    && b.seen == a.seen + V && V !! a.seen
    && multiset(b.visits) == multiset(a.visits) + multiset(V)
    && Closed(g, s, V, a.seen)
    && a.total <= b.total
    && OthersKept(a, b, V)
    && forall v {:trigger Visited(g, s, root, a, b, V, v)} :: v in V ==> Visited(g, s, root, a, b, V, v)
  }

  lemma GrewNot(g: Graph, s: nat, root: nat, a: Snap)
    requires ValidGraph(g)
    ensures Grew(g, s, root, a, a, {})
  {
    assert GrewBy(g, s, root, a, a, {});
  }

  lemma GrewSeen(g: Graph, s: nat, root: nat, a: Snap, b: Snap, V: set<nat>)
    requires ValidGraph(g) && Grew(g, s, root, a, b, V)
    ensures b.seen == a.seen + V && V !! a.seen && a.total <= b.total && OthersKept(a, b, V)
  {
    assert GrewBy(g, s, root, a, b, V);
  }

  lemma StillVisited(g: Graph, s: nat, root: nat, a: Snap, b: Snap, c: Snap, V: set<nat>, W: set<nat>, v: nat)
    requires ValidGraph(g) && V !! W && OthersKept(b, c, W) && v in V && Visited(g, s, root, a, b, V, v)
    ensures Visited(g, s, root, a, c, V + W, v)
  {
    assert v in c.log && c.log[v] == b.log[v];
    assert c.log[v].under * c.counted == b.log[v].under * b.counted;
    assert SameFilter(b, c, v);
    EarlierKept(b.visits, c.visits[|b.visits|..], v);
    assert c.visits == b.visits + c.visits[|b.visits|..];
  }

  lemma LaterVisited(g: Graph, s: nat, root: nat, a: Snap, b: Snap, c: Snap, V: set<nat>, W: set<nat>, v: nat)
    requires ValidGraph(g) && V !! W && OthersKept(a, b, V) && v in W && Visited(g, s, root, b, c, W, v)
    ensures Visited(g, s, root, a, c, V + W, v)
  {
    assert SameFilter(a, b, v);
  }

  lemma OthersKeptBoth(a: Snap, b: Snap, c: Snap, V: set<nat>, W: set<nat>)
    requires OthersKept(a, b, V) && OthersKept(b, c, W)
    ensures OthersKept(a, c, V + W)
  {
    forall v | v !in V + W
      ensures SameFilter(a, c, v)
    {
      assert SameFilter(a, b, v) && SameFilter(b, c, v);
    }
  }

  lemma GrewBoth(g: Graph, s: nat, root: nat, a: Snap, b: Snap, c: Snap, V: set<nat>, W: set<nat>)
    requires ValidGraph(g) && Grew(g, s, root, a, b, V) && Grew(g, s, root, b, c, W)
    ensures Grew(g, s, root, a, c, V + W)
  {
    assert GrewBy(g, s, root, a, b, V) && GrewBy(g, s, root, b, c, W);
    forall v <- V + W
      ensures Visited(g, s, root, a, c, V + W, v)
    {
      if v in V {
        StillVisited(g, s, root, a, b, c, V, W, v);
      } else {
        LaterVisited(g, s, root, a, b, c, V, W, v);
      }
    }
    OthersKeptBoth(a, b, c, V, W);
    SeenBoth(g, s, a, b, c, V, W);
    assert GrewBy(g, s, root, a, c, V + W);
  }

  lemma SeenBoth(g: Graph, s: nat, a: Snap, b: Snap, c: Snap, V: set<nat>, W: set<nat>)
    requires b.seen == a.seen + V && V !! a.seen && c.seen == b.seen + W && W !! b.seen
    requires multiset(b.visits) == multiset(a.visits) + multiset(V)
    requires multiset(c.visits) == multiset(b.visits) + multiset(W)
    requires Closed(g, s, V, a.seen) && Closed(g, s, W, b.seen)
    ensures c.seen == a.seen + (V + W) && V + W !! a.seen && Closed(g, s, V + W, a.seen)
    ensures multiset(c.visits) == multiset(a.visits) + multiset(V + W)
  {
    assert multiset(V + W) == multiset(V) + multiset(W);
  }

  /** The state after a leaf `u` was visited from `a`. */
  ghost function AfterLeaf(g: Graph, a: Snap, u: nat): Snap
    requires u < |g|
  {
    a.(seen := a.seen + {u}, visits := a.visits + [u], counted := a.counted + {u}, total := a.total + {g[u].rtype},
       log := a.log[u := Visit(a.seen, {})])
  }

  lemma VisitedLeaf(g: Graph, s: nat, root: nat, a: Snap, u: nat)
    requires ValidGraph(g) && u < |g| && u !in a.seen && g[u].out == [] && Rooted(g, s, root, a.seen) && Steady(g, a)
    ensures Visited(g, s, root, a, AfterLeaf(g, a, u), {u}, u)
  {
    SteadyMeans(g, a);
    EarlierIsAll(a.visits, u);
    assert Preorder(g, s, u, a.seen) == [u];
  }

  lemma GrewLeaf(g: Graph, s: nat, root: nat, a: Snap, u: nat)
    requires ValidGraph(g) && u < |g| && u !in a.seen && g[u].out == [] && Rooted(g, s, root, a.seen) && Steady(g, a)
    ensures Grew(g, s, root, a, AfterLeaf(g, a, u), {u})
    ensures Preorder(g, s, u, a.seen) == [u]
  {
    VisitedLeaf(g, s, root, a, u);
    assert multiset({u}) == multiset{u};
    assert GrewBy(g, s, root, a, AfterLeaf(g, a, u), {u});
    assert Preorder(g, s, u, a.seen) == [u];
  }

  /** The state when `u` has just been coloured gray. */
  ghost function Entered(g: Graph, a: Snap, u: nat): Snap
    requires u < |g|
  {
    a.(seen := a.seen + {u}, visits := a.visits + [u],
       counted := a.counted + (if g[u].rtype in a.total then {u} else {}))
  }

  /** The state when `u` has been left, `b` being the state after its children, `B` the vertices coloured
      before it and `plan` its new filter, if it has one. */
  ghost function Left(B: set<nat>, b: Snap, u: nat, V: set<nat>, plan: Totals): Snap {
    b.(log := b.log[u := Visit(B, V)], subplans := if plan == map[] then b.subplans else b.subplans[u := plan])
  }

  /** The vertex `u` itself, when all its children are done. */
  lemma GoodVisitSelf(g: Graph, s: nat, root: nat, a: Snap, u: nat, V: set<nat>)
    requires u < |g| && u !in a.seen && u !in V && V !! a.seen
    requires Rooted(g, s, root, a.seen) && Closed(g, s, V, a.seen + {u})
    requires AllReached(g, s, u, V)
    requires ChildrenSeen(g, s, u, |g[u].out|, a.seen + {u} + V)
    ensures GoodVisit(g, s, root, u, Visit(a.seen, V))
  {
    assert Closed(g, s, V + {u}, a.seen);
  }

  /** The filter that a vertex is left with. */
  ghost predicate PlanFor(g: Graph, b: Snap, u: nat, V: set<nat>, plan: Totals)
    requires u < |g|
  {
    plan.Keys == FilterTypes(b.setup, b.total, g[u].rtype) && GoodPlan(g, plan, V * b.counted)
  }

  lemma LeafTypesBut(g: Graph, S: set<nat>, u: nat)
    requires u < |g| && g[u].out != []
    ensures LeafTypes(g, S + {u}) == LeafTypes(g, S)
  {}

  lemma FilteredSelf(g: Graph, a: Snap, b: Snap, u: nat, V: set<nat>, plan: Totals)
    requires u < |g| && g[u].out != [] && u !in V
    requires OthersKept(Entered(g, a, u), b, V) && b.seen == a.seen + {u} + V
    requires Steady(g, b) && PlanFor(g, b, u, V, plan)
    ensures Filtered(g, a, Left(a.seen, b, u, V, plan), u)
  {
    SteadyMeans(g, b);
    assert a.seen + {u} + V == a.seen + V + {u};
    LeafTypesBut(g, a.seen + V, u);
    assert SameFilter(Entered(g, a, u), b, u);
    assert plan == map[] <==> plan.Keys == {};
  }

  lemma VisitedSelf(g: Graph, s: nat, root: nat, a: Snap, b: Snap, u: nat, V: set<nat>, plan: Totals)
    requires ValidGraph(g) && u < |g| && u !in a.seen && u !in V && g[u].out != []
    requires GoodVisit(g, s, root, u, Visit(a.seen, V)) && V == Elements(Children(g, s, u, 0, a.seen + {u}))
    requires Steady(g, a) && OthersKept(Entered(g, a, u), b, V)
    requires Filtered(g, a, Left(a.seen, b, u, V, plan), u)
    ensures Visited(g, s, root, a, Left(a.seen, b, u, V, plan), V + {u}, u)
  {
    SteadyMeans(g, a);
    EarlierIsAll(a.visits, u);
    var first := a.visits + [u];
    assert u in first;
    EarlierKept(first, b.visits[|first|..], u);
    assert b.visits == first + b.visits[|first|..];
    assert Elements(Preorder(g, s, u, a.seen)) == {u} + V;
  }

  /** A vertex visited below `u` stays visited when `u` is left. */
  lemma VisitedBelow(g: Graph, s: nat, root: nat, a: Snap, b: Snap, u: nat, V: set<nat>, plan: Totals, v: nat)
    requires ValidGraph(g) && u < |g| && v != u && Visited(g, s, root, Entered(g, a, u), b, V, v)
    ensures Visited(g, s, root, a, Left(a.seen, b, u, V, plan), V + {u}, v)
  {}

  lemma OthersKeptLeft(g: Graph, a: Snap, b: Snap, u: nat, V: set<nat>, plan: Totals)
    requires u < |g| && OthersKept(Entered(g, a, u), b, V)
    ensures OthersKept(a, Left(a.seen, b, u, V, plan), V + {u})
  {
    var c := Left(a.seen, b, u, V, plan);
    forall v | v !in V + {u}
      ensures SameFilter(a, c, v)
    {
      assert SameFilter(Entered(g, a, u), b, v);
    }
  }

  lemma GrewInterior(g: Graph, s: nat, root: nat, a: Snap, b: Snap, u: nat, V: set<nat>, plan: Totals)
    requires ValidGraph(g) && u < |g| && u !in a.seen && g[u].out != [] && Rooted(g, s, root, a.seen)
    requires Grew(g, s, root, Entered(g, a, u), b, V) && V == Elements(Children(g, s, u, 0, a.seen + {u}))
    requires AllReached(g, s, u, V)
    requires ChildrenSeen(g, s, u, |g[u].out|, b.seen)
    requires Steady(g, a) && Steady(g, b) && PlanFor(g, b, u, V, plan)
    ensures Grew(g, s, root, a, Left(a.seen, b, u, V, plan), V + {u})
  {
    assert GrewBy(g, s, root, Entered(g, a, u), b, V);
    var c := Left(a.seen, b, u, V, plan);
    GoodVisitSelf(g, s, root, a, u, V);
    FilteredSelf(g, a, b, u, V, plan);
    VisitedSelf(g, s, root, a, b, u, V, plan);
    forall v <- V
      ensures Visited(g, s, root, a, c, V + {u}, v)
    {
      assert Visited(g, s, root, Entered(g, a, u), b, V, v);
      VisitedBelow(g, s, root, a, b, u, V, plan, v);
    }
    OthersKeptLeft(g, a, b, u, V, plan);
    SeenInterior(g, s, a, b, u, V);
    assert GrewBy(g, s, root, a, c, V + {u});
  }

  lemma SeenInterior(g: Graph, s: nat, a: Snap, b: Snap, u: nat, V: set<nat>)
    requires u < |g| && u !in a.seen && V !! a.seen && u !in V && b.seen == a.seen + {u} + V
    requires multiset(b.visits) == multiset(a.visits + [u]) + multiset(V)
    requires Closed(g, s, V, a.seen + {u}) && ChildrenSeen(g, s, u, |g[u].out|, b.seen)
    ensures b.seen == a.seen + (V + {u}) && V + {u} !! a.seen
    ensures multiset(b.visits) == multiset(a.visits) + multiset(V + {u})
    ensures Closed(g, s, V + {u}, a.seen)
  {
    assert multiset(V + {u}) == multiset(V) + multiset{u};
  }

  /** Every vertex of `V` is reachable from `u`. */
  ghost predicate AllReached(g: Graph, s: nat, u: nat, V: set<nat>) {
    forall v {:trigger Reaches(g, s, u, v)} :: v in V ==> Reaches(g, s, u, v)
  }

  lemma SelfReached(g: Graph, s: nat, u: nat, V: set<nat>)
    requires u < |g| && AllReached(g, s, u, V)
    ensures AllReached(g, s, u, V + {u})
  {
    ReachesSelf(g, s, u);
  }

  lemma RootedMore(g: Graph, s: nat, root: nat, B: set<nat>, u: nat)
    requires Rooted(g, s, root, B) && (u == root || FoundFrom(g, s, B, u))
    ensures Rooted(g, s, root, B + {u})
  {
    var C := B + {u};
    forall x | x in C
      ensures x == root || FoundFrom(g, s, C, x)
    {
      if x != root {
        assert FoundFrom(g, s, B, x);
        var p :| p in B && Linked(g, s, p, x);
        assert p in C;
      }
    }
  }

  class Walk {
    const g: Graph
    const s: nat        // the subsystem being primed
    const root: nat
    const cluster: nat  // the type that leaf types are anchored to
    const any: nat      // the type that stands for every anchor

    var palette: Palette
    var colors: map<nat, nat>
    var total: set<nat>                // every pruning type
    var anchors: map<nat, set<nat>>    // the pruning types of each anchor type
    var subplans: map<nat, Totals>

    ghost var setup: Setup             // as configured before the walk
    ghost var seen: set<nat>           // vertices that are gray or black
    ghost var log: map<nat, Visit>
    ghost var counted: set<nat>        // vertices whose own size was accumulated
    ghost var visits: seq<nat>

    ghost predicate Valid()
      reads this
    {
      ValidGraph(g) && root < |g| && Coloured() && Steady(g, State()) && TypesOk()
    }

    ghost predicate Coloured()
      reads this
    {
      AllShaded(|g|, palette, colors, seen)
    }

    /** What is configured, and what the leaves seen have added. */
    ghost predicate TypesOk()
      reads this
    {
      && GoodSetup(setup) && setup.cluster == cluster && setup.any == any && setup.total <= total
      && AnchorsOk(setup, total, anchors)
    }

    ghost function White(): set<nat>
      reads this
    {
      Uncoloured(g, seen)
    }

    /** stop_explore: the target is being visited or has been. */
    predicate StopExplore(v: nat)
      reads this
    {
      v in colors && (palette.IsGray(colors[v]) || palette.IsBlack(colors[v]))
    }

    function AccumIf(t: nat, count: nat, accum: Totals): Totals
      reads this
    {
      if t in total then accum[t := Get(accum, t) + count % TWO32] else accum
    }

    function MyPruningTypes(anchor: nat): set<nat>
      reads this
    {
      Of(anchors, anchor) + if anchor != any then Of(anchors, any) - {anchor} else {}
    }

    /** set_pruning_type with the cluster as the anchor, for a type that is new. */
    method SetPruningType(t: nat)
      requires TypesOk() && t !in total
      modifies this`total, this`anchors
      ensures total == old(total) + {t} && TypesOk()
    {
      ghost var before := anchors;
      if cluster == any {
        anchors := map a | a in anchors :: anchors[a] - {t};
        anchors := anchors[any := Of(anchors, any) + {t}];
      } else if any !in anchors || t !in anchors[any] {
        anchors := anchors[cluster := Of(anchors, cluster) + {t}];
      }
      forall k
        ensures Of(anchors, k) == (Of(before, k) - {t}) + (if k == cluster then {t} else {})
      {
        NotAnchored(setup, total, before, t, k);
        NotAnchored(setup, total, before, t, any);
      }
      MoreAnchored(setup, total, before, anchors, t);
      total := total + {t};
    }

    method MergeInto(dfv: Totals, toParent: Totals, ghost S: set<nat>) returns (out: Totals)
      requires dfv.Keys <= total && toParent.Keys <= total
      requires Adds(g, S, map[], dfv)
      ensures out.Keys <= total
      ensures Adds(g, S, toParent, out)
    {
      out := AccumAll(dfv, toParent);
      forall t: nat
        ensures AddsOf(g, S, toParent, out, t)
      {
        assert AddsOf(g, S, map[], dfv, t);
        KeptTruncated(Units(g, S, t), Get(dfv, t));
      }
    }

    method AccumAll(dfv: Totals, toParent: Totals) returns (out: Totals)
      requires dfv.Keys <= total && toParent.Keys <= total
      ensures out.Keys <= total
      ensures forall t: nat :: Get(out, t) - Get(toParent, t) == Get(dfv, t) % TWO32
    {
      out := toParent;
      var todo := dfv.Keys;
      while todo != {}
        invariant todo <= dfv.Keys && out.Keys <= total
        invariant forall t: nat :: Get(out, t) - Get(toParent, t)
                                     == if t in dfv && t !in todo then dfv[t] % TWO32 else 0
        decreases |todo|
      {
        var t :| t in todo;
        out := AccumIf(t, dfv[t], out);
        todo := todo - {t};
      }
    }

    ghost function State(): Snap
      reads this
    {
      Snap(setup, seen, total, counted, log, subplans, visits)
    }

    /** The part of the visit before the children. */
    method Enter(u: nat, toParent: Totals) returns (out: Totals)
      requires Valid() && u < |g| && u !in seen && toParent.Keys <= total
      modifies `colors, `seen, `visits, `counted
      ensures Coloured()
      ensures State() == Entered(g, old(State()), u)
      ensures out.Keys <= total && Adds(g, {u} * counted, toParent, out)
      ensures g[u].rtype !in total ==> out == toParent
    {
      Paint(|g|, palette, colors, seen, u, palette.Gray());
      colors := colors[u := palette.Gray()];
      seen := seen + {u};
      visits := visits + [u];
      out := AccumIf(g[u].rtype, g[u].size, toParent);
      ghost var own: set<nat> := if g[u].rtype in total then {u} else {};
      counted := counted + own;
      assert {u} * counted == own;
      AddsOwn(g, u, toParent);
      AddsNothing(g, toParent);
    }

    /** A leaf's type becomes a pruning type, so that its size always counts. */
    method PrimeLeaf(u: nat, toParent: Totals) returns (out: Totals)
      requires Valid() && u < |g| && u !in seen && g[u].out == [] && toParent.Keys <= total
      modifies this
      ensures Valid() && palette == old(palette)
      ensures State() == AfterLeaf(g, old(State()), u)
      ensures out.Keys <= total && Adds(g, {u}, toParent, out)
    {
      SteadyLeaf(g, State(), u);
      ghost var B := seen;
      out := Enter(u, toParent);
      assert {u} * counted == if g[u].rtype in total then {u} else {};
      if g[u].rtype !in total {
        out := NewLeafType(u, toParent);
      }
      counted := counted + {u};
      log := log[u := Visit(B, {})];
      Blacken(u);
      assert total == old(total) + {g[u].rtype};
    }

    method Blacken(u: nat)
      requires Coloured() && u in seen && u < |g|
      modifies `colors
      ensures Coloured()
    {
      Paint(|g|, palette, colors, seen, u, palette.Black());
      assert seen + {u} == seen;
      colors := colors[u := palette.Black()];
    }

    method NewLeafType(u: nat, toParent: Totals) returns (out: Totals)
      requires ValidGraph(g) && TypesOk() && u < |g| && g[u].rtype !in total && toParent.Keys <= total
      modifies this`total, this`anchors
      ensures TypesOk() && total == old(total) + {g[u].rtype}
      ensures out.Keys <= total && Adds(g, {u}, toParent, out)
    {
      SetPruningType(g[u].rtype);
      out := AccumIf(g[u].rtype, g[u].size, toParent);
      AddsOwn(g, u, toParent);
    }

    /** prime_pruning_filter: visits `u` and everything not yet coloured below it, adds what it
        counts to `toParent`, and installs the filter of `u`. */
    method PrimePruningFilter(u: nat, toParent: Totals) returns (out: Totals, ghost V: set<nat>)
      requires Valid() && u < |g| && u !in seen
      requires Rooted(g, s, root, seen) && (u == root || FoundFrom(g, s, seen, u))
      requires toParent.Keys <= total
      modifies this
      ensures Valid() && palette == old(palette)
      ensures Grew(g, s, root, old(State()), State(), V)
      ensures visits == old(visits) + Preorder(g, s, u, old(seen)) && V == Elements(Preorder(g, s, u, old(seen)))
      ensures Rooted(g, s, root, seen) && AllReached(g, s, u, V)
      ensures out.Keys <= total && Adds(g, V * counted, toParent, out)
      decreases White(), 1
    {
      if |g[u].out| == 0 {
        out, V := VisitLeaf(u, toParent);
      } else {
        out, V := PrimeInterior(u, toParent);
      }
    }

    method VisitLeaf(u: nat, toParent: Totals) returns (out: Totals, ghost V: set<nat>)
      requires Valid() && u < |g| && u !in seen && g[u].out == []
      requires Rooted(g, s, root, seen) && (u == root || FoundFrom(g, s, seen, u))
      requires toParent.Keys <= total
      modifies this
      ensures Valid() && palette == old(palette)
      ensures Grew(g, s, root, old(State()), State(), V)
      ensures visits == old(visits) + Preorder(g, s, u, old(seen)) && V == Elements(Preorder(g, s, u, old(seen)))
      ensures Rooted(g, s, root, seen) && AllReached(g, s, u, V)
      ensures out.Keys <= total && Adds(g, V * counted, toParent, out)
    {
      ReachesSelf(g, s, u);
      RootedMore(g, s, root, seen, u);
      GrewLeaf(g, s, root, State(), u);
      out := PrimeLeaf(u, toParent);
      V := {u};
      assert V * counted == {u};
    }

    method PrimeInterior(u: nat, toParent: Totals) returns (out: Totals, ghost V: set<nat>)
      requires Valid() && u < |g| && u !in seen && g[u].out != []
      requires Rooted(g, s, root, seen) && (u == root || FoundFrom(g, s, seen, u))
      requires toParent.Keys <= total
      modifies this
      ensures Valid() && palette == old(palette)
      ensures Grew(g, s, root, old(State()), State(), V)
      ensures visits == old(visits) + Preorder(g, s, u, old(seen)) && V == Elements(Preorder(g, s, u, old(seen)))
      ensures Rooted(g, s, root, seen) && AllReached(g, s, u, V)
      ensures out.Keys <= total && Adds(g, V * counted, toParent, out)
      decreases White(), 0
    {
      ghost var a := State();
      RootedMore(g, s, root, seen, u);
      SteadyEntered(g, a, u);
      LessWhite(g, seen, u);
      out := Enter(u, toParent);
      ghost var own := {u} * counted;
      ghost var below;
      var dfv;
      dfv, below := PrimeExp(u);
      GrewSeen(g, s, root, Entered(g, a, u), State(), below);
      OwnKept(g, a, State(), u, below);
      out := Leave(u, dfv, toParent, out, a, below);
      V := below + {u};
      SelfReached(g, s, u, below);
      PreorderIs(g, s, u, a.seen);
    }

    /** The part of the visit after the children: passes their totals up and installs the filter. */
    method Leave(u: nat, dfv: Totals, ghost toParent: Totals, sofar: Totals, ghost a: Snap, ghost V: set<nat>)
      returns (out: Totals)
      requires Valid() && u < |g| && u !in a.seen && g[u].out != [] && Steady(g, a)
      requires Rooted(g, s, root, a.seen)
      requires Grew(g, s, root, Entered(g, a, u), State(), V) && V == Elements(Children(g, s, u, 0, a.seen + {u}))
      requires AllReached(g, s, u, V)
      requires ChildrenSeen(g, s, u, |g[u].out|, seen)
      requires dfv.Keys <= total && sofar.Keys <= total
      requires Adds(g, {u} * counted, toParent, sofar) && Adds(g, V * counted, map[], dfv)
      modifies this
      ensures Valid() && palette == old(palette) && visits == old(visits) && seen == old(seen)
      ensures Grew(g, s, root, a, State(), V + {u})
      ensures out.Keys <= total && Adds(g, (V + {u}) * counted, toParent, out)
    {
      ghost var b := State();
      GrewSeen(g, s, root, Entered(g, a, u), b, V);
      out := MergeInto(dfv, sofar, V * counted);
      AddsBoth(g, {u} * counted, V * counted, toParent, sofar, out);
      assert {u} * counted + V * counted == (V + {u}) * counted;
      ghost var plan := Install(u, dfv, a.seen, V);
      GrewInterior(g, s, root, a, b, u, V, plan);
    }

    method Install(u: nat, dfv: Totals, ghost B: set<nat>, ghost V: set<nat>) returns (ghost plan: Totals)
      requires Valid() && u < |g| && u in seen && Adds(g, V * counted, map[], dfv)
      modifies this
      ensures Valid() && palette == old(palette)
      ensures PlanFor(g, old(State()), u, V, plan)
      ensures State() == Left(B, old(State()), u, V, plan)
    {
      var types := MyPruningTypes(g[u].rtype);
      assert Of(anchors, g[u].rtype) == Anchored(setup, total, g[u].rtype);
      assert Of(anchors, any) == Anchored(setup, total, any);
      var filter := map t | t in types :: Get(dfv, t);
      assert filter.Keys == types;
      if types != {} {
        subplans := subplans[u := filter];
      }
      Blacken(u);
      log := log[u := Visit(B, V)];
      plan := filter;
      PlanFromTotals(g, dfv, filter, V * counted);
    }

    /** prime_exp: visits every child of `u` that is not coloured yet. */
    method PrimeExp(u: nat) returns (dfv: Totals, ghost V: set<nat>)
      requires Valid() && u < |g| && u in seen && Rooted(g, s, root, seen)
      modifies this
      ensures Valid() && palette == old(palette)
      ensures Grew(g, s, root, old(State()), State(), V)
      ensures visits == old(visits) + Children(g, s, u, 0, old(seen)) && V == Elements(Children(g, s, u, 0, old(seen)))
      ensures Rooted(g, s, root, seen) && AllReached(g, s, u, V)
      ensures ChildrenSeen(g, s, u, |g[u].out|, seen)
      ensures dfv.Keys <= total && Adds(g, V * counted, map[], dfv)
      decreases White(), 4
    {
      dfv, V := map[], {};
      ghost var found: seq<nat> := [];
      GrewNot(g, s, root, State());
      AddsNothing(g, map[]);
      assert V * counted == {};
      for i := 0 to |g[u].out|
        invariant Valid() && palette == old(palette) && u in seen
        invariant Grew(g, s, root, old(State()), State(), V)
        invariant old(seen) <= seen
        invariant Finding(g, s, u, old(seen), old(visits), i, seen, visits, found) && V == Elements(found)
        invariant Rooted(g, s, root, seen) && AllReached(g, s, u, V)
        invariant ChildrenSeen(g, s, u, i, seen)
        invariant dfv.Keys <= total && Adds(g, V * counted, map[], dfv)
      {
        dfv, V, found := PrimeEdge(u, i, dfv, old(State()), V, found);
      }
      assert Children(g, s, u, |g[u].out|, seen) == [];
    }

    /** One edge: a child that is not coloured yet is visited. */
    method PrimeEdge(u: nat, i: nat, dfv: Totals, ghost a: Snap, ghost V: set<nat>, ghost found: seq<nat>)
      returns (dfv': Totals, ghost V': set<nat>, ghost found': seq<nat>)
      requires Valid() && u < |g| && i < |g[u].out| && u in seen
      requires Rooted(g, s, root, seen) && Grew(g, s, root, a, State(), V) && ChildrenSeen(g, s, u, i, seen)
      requires Finding(g, s, u, a.seen, a.visits, i, seen, visits, found) && V == Elements(found)
      requires AllReached(g, s, u, V)
      requires dfv.Keys <= total && Adds(g, V * counted, map[], dfv)
      modifies this
      ensures Valid() && palette == old(palette) && old(seen) <= seen
      ensures Rooted(g, s, root, seen) && Grew(g, s, root, a, State(), V') && ChildrenSeen(g, s, u, i + 1, seen)
      ensures Finding(g, s, u, a.seen, a.visits, i + 1, seen, visits, found') && V' == Elements(found')
      ensures AllReached(g, s, u, V')
      ensures dfv'.Keys <= total && Adds(g, V' * counted, map[], dfv')
      decreases White(), 3
    {
      var e := g[u].out[i];
      ghost var before, listed := seen, visits;
      dfv', V', found' := dfv, V, found;
      assert Shaded(|g|, palette, colors, seen, e.target);
      if !StopExplore(e.target) && e.subsystem == s {
        ghost var more := Preorder(g, s, e.target, seen);
        dfv', V' := PrimeChild(u, e.target, dfv, a, V);
        found' := found + more;
        assert Elements(found') == V + Elements(more);
      }
      FindMore(g, s, u, a.seen, a.visits, i, before, listed, found);
      MoreChildrenSeen(g, s, u, i, before, seen);
    }

    method PrimeChild(u: nat, w: nat, dfv: Totals, ghost a: Snap, ghost V: set<nat>)
      returns (dfv': Totals, ghost V': set<nat>)
      requires Valid() && u in seen && w < |g| && w !in seen && Linked(g, s, u, w)
      requires Rooted(g, s, root, seen) && Grew(g, s, root, a, State(), V)
      requires AllReached(g, s, u, V)
      requires dfv.Keys <= total && Adds(g, V * counted, map[], dfv)
      modifies this
      ensures Valid() && palette == old(palette)
      ensures visits == old(visits) + Preorder(g, s, w, old(seen)) && V' == V + Elements(Preorder(g, s, w, old(seen)))
      ensures seen == old(seen) + Elements(Preorder(g, s, w, old(seen))) && w in seen
      ensures Rooted(g, s, root, seen) && Grew(g, s, root, a, State(), V')
      ensures AllReached(g, s, u, V')
      ensures dfv'.Keys <= total && Adds(g, V' * counted, map[], dfv')
      decreases White(), 2
    {
      ghost var b := State();
      ghost var W;
      dfv', W := PrimePruningFilter(w, dfv);
      V' := V + W;
      GrewSeen(g, s, root, b, State(), W);
      GrewBoth(g, s, root, a, b, State(), V, W);
      CountedBoth(g, s, root, a, b, State(), V, W);
      AddsBoth(g, V * b.counted, W * counted, map[], dfv, dfv');
      ReachedBoth(g, s, u, w, V, W);
    }

    constructor (g: Graph, s: nat, root: nat, cluster: nat, any: nat, total: set<nat>, anchors: map<nat, set<nat>>)
      requires ValidGraph(g) && root < |g| && GoodSetup(Setup(total, anchors, cluster, any))
      ensures Valid() && this.g == g && this.s == s && this.root == root && subplans == map[]
      ensures this.total == total && this.anchors == anchors && this.cluster == cluster && this.any == any
    {
      this.g, this.s, this.root, this.cluster, this.any := g, s, root, cluster, any;
      this.total, this.anchors := total, anchors;
      palette, colors, subplans := Palette(0), map[], map[];
      setup := Setup(total, anchors, cluster, any);
      seen, log, counted, visits := {}, map[], {}, [];
      new;
      SetupAgain(g, State(), anchors);
    }

    /** dfu_traverser_t::initialize for one subsystem: a fresh colour, then one walk from the root.
        Whatever shape the graph has, the walk visits each vertex reachable from the root exactly
        once, in depth-first order; which sizes count, which filters there are and what they hold follow from
        that order and from what was configured. */
    method Initialize() returns (fromDfv: Totals, ghost V: set<nat>)
      requires Valid()
      modifies this
      ensures Valid() && setup == Setup(old(total), old(anchors), cluster, any)
      ensures forall v :: v in V <==> Reaches(g, s, root, v)
      ensures visits == Preorder(g, s, root, {}) && multiset(visits) == multiset(V)
      ensures AllRecorded(g, s, root, State(), V)
      ensures old(subplans) == map[] ==> AllInstalled(g, State(), V)
      ensures forall t: nat :: Kept(Units(g, V * counted, t), Get(fromDfv, t))
      ensures forall t: nat :: Tracked(g, old(total), t) && Units(g, V, t) < TWO32 ==> Get(fromDfv, t) == Units(g, V, t)
    {
      FreshColour(|g|, palette, colors, seen);
      palette := palette.Reset();
      setup := Setup(total, anchors, cluster, any);
      seen, log, counted, visits := {}, map[], {}, [];
      SetupAgain(g, State(), anchors);
      ghost var a := State();
      fromDfv, V := PrimePruningFilter(root, map[]);
      GrewSeen(g, s, root, a, State(), V);
      WholeWalk(g, s, root, a, State(), V);
      WholeRecord(g, s, root, a, State(), V);
      if a.subplans == map[] {
        WholeFilters(g, s, root, a, State(), V);
      }
      WholeTotals(g, s, root, a, State(), V, fromDfv);
    }
  }

  ghost predicate AnchorsOk(u: Setup, total: set<nat>, anchors: map<nat, set<nat>>) {
    forall k: nat {:trigger Of(anchors, k)} :: Of(anchors, k) == Anchored(u, total, k)
  }

  /** A new leaf type is anchored to the cluster, whichever branch does it. */
  lemma MoreAnchored(u: Setup, total: set<nat>, before: map<nat, set<nat>>, after: map<nat, set<nat>>, t: nat)
    requires GoodSetup(u) && u.total <= total && t !in total && AnchorsOk(u, total, before)
    requires forall k :: Of(after, k) == (Of(before, k) - {t}) + (if k == u.cluster then {t} else {})
    ensures AnchorsOk(u, total + {t}, after)
  {
    forall k
      ensures Of(after, k) == Anchored(u, total + {t}, k)
    {
      assert Of(before, k) == Anchored(u, total, k);
      assert Of(u.anchors, k) <= u.total;
    }
  }

  lemma NotAnchored(u: Setup, total: set<nat>, anchors: map<nat, set<nat>>, t: nat, k: nat)
    requires GoodSetup(u) && u.total <= total && t !in total && AnchorsOk(u, total, anchors)
    ensures t !in Of(anchors, k)
  {
    assert Of(anchors, k) == Anchored(u, total, k) && Of(u.anchors, k) <= u.total;
  }

  lemma SetupAgain(g: Graph, a: Snap, anchors: map<nat, set<nat>>)
    requires a.seen == {} && a.visits == [] && a.counted == {} && a.setup.total == a.total && a.setup.anchors == anchors
    ensures Steady(g, a) && AnchorsOk(a.setup, a.total, anchors)
  {
    assert LeafTypes(g, {}) == {};
    SteadyMeans(g, a);
  }

  lemma SteadyLeaf(g: Graph, a: Snap, u: nat)
    requires u < |g| && g[u].out == [] && Steady(g, a)
    ensures Steady(g, AfterLeaf(g, a, u))
  {
    SteadyMeans(g, a);
    assert LeafTypes(g, a.seen + {u}) == LeafTypes(g, a.seen) + {g[u].rtype};
    SteadyMeans(g, AfterLeaf(g, a, u));
  }

  lemma SteadyEntered(g: Graph, a: Snap, u: nat)
    requires u < |g| && g[u].out != [] && Steady(g, a)
    ensures Steady(g, Entered(g, a, u))
  {
    SteadyMeans(g, a);
    LeafTypesBut(g, a.seen, u);
    SteadyMeans(g, Entered(g, a, u));
  }

  lemma LessWhite(g: Graph, seen: set<nat>, u: nat)
    requires u < |g| && u !in seen
    ensures Uncoloured(g, seen + {u}) < Uncoloured(g, seen)
  {
    assert u in Uncoloured(g, seen) && u !in Uncoloured(g, seen + {u});
  }

  /** What is below does not change whether `u` counts. */
  lemma OwnKept(g: Graph, a: Snap, b: Snap, u: nat, V: set<nat>)
    requires u < |g| && u !in V && OthersKept(Entered(g, a, u), b, V)
    ensures {u} * b.counted == {u} * Entered(g, a, u).counted
  {}

  lemma PreorderIs(g: Graph, s: nat, u: nat, seen: set<nat>)
    requires ValidGraph(g) && u < |g| && u !in seen
    ensures Preorder(g, s, u, seen) == [u] + Children(g, s, u, 0, seen + {u})
    ensures Elements(Preorder(g, s, u, seen)) == Elements(Children(g, s, u, 0, seen + {u})) + {u}
  {}

  /** `found` is what the first `i` edges of `u` led to, and the rest is still to come. */
  ghost predicate Finding(g: Graph, s: nat, u: nat, seen0: set<nat>, visits0: seq<nat>, i: nat, seen: set<nat>,
                          visits: seq<nat>, found: seq<nat>)
    requires ValidGraph(g) && u < |g| && i <= |g[u].out|
  {
    && visits == visits0 + found
    && Children(g, s, u, 0, seen0) == found + Children(g, s, u, i, seen)
  }

  lemma FindMore(g: Graph, s: nat, u: nat, seen0: set<nat>, visits0: seq<nat>, i: nat, seen: set<nat>,
                 visits: seq<nat>, found: seq<nat>)
    requires ValidGraph(g) && u < |g| && i < |g[u].out| && Finding(g, s, u, seen0, visits0, i, seen, visits, found)
    ensures var e := g[u].out[i];
            if e.subsystem == s && e.target !in seen then
              var more := Preorder(g, s, e.target, seen);
              Finding(g, s, u, seen0, visits0, i + 1, seen + Elements(more), visits + more, found + more)
            else Finding(g, s, u, seen0, visits0, i + 1, seen, visits, found)
  {}

  lemma CountedBoth(g: Graph, s: nat, root: nat, a: Snap, b: Snap, c: Snap, V: set<nat>, W: set<nat>)
    requires ValidGraph(g) && Grew(g, s, root, a, b, V) && Grew(g, s, root, b, c, W)
    ensures V !! W && (V + W) * c.counted == V * b.counted + W * c.counted
  {
    GrewSeen(g, s, root, a, b, V);
    GrewSeen(g, s, root, b, c, W);
  }

  lemma ReachedBoth(g: Graph, s: nat, u: nat, w: nat, V: set<nat>, W: set<nat>)
    requires Linked(g, s, u, w) && AllReached(g, s, u, V) && AllReached(g, s, w, W)
    ensures AllReached(g, s, u, V + W)
  {
    forall v <- W
      ensures Reaches(g, s, u, v)
    {
      ReachesStep(g, s, u, w, v);
    }
  }

  /** What a whole walk leaves for a vertex: it saw what depth-first order says, and its size was accumulated
      if and only if it is a leaf, its type was configured, or a leaf of its type comes earlier. */
  ghost predicate Record(g: Graph, s: nat, root: nat, b: Snap, v: nat)
    requires ValidGraph(g)
  {
    && v < |g| && v in b.log && GoodVisit(g, s, root, v, b.log[v])
    && b.log[v].before == Earlier(b.visits, v) && Found(g, s, v, b.log[v])
    && (v in b.counted <==> Counts(g, b.setup.total, Earlier(b.visits, v), v))
  }

  ghost predicate AllRecorded(g: Graph, s: nat, root: nat, b: Snap, V: set<nat>)
    requires ValidGraph(g)
  {
    forall v {:trigger Record(g, s, root, b, v)} :: v in V ==> Record(g, s, root, b, v)
  }

  /** The filter of a vertex after a walk over a graph without filters: there is one if and only if it has types,
      and it holds what was counted below. */
  ghost predicate Installed(g: Graph, b: Snap, v: nat) {
    && v < |g| && v in b.log
    && (v in b.subplans <==> TypesAt(g, b.setup, v, b.log[v]) != {})
    && (v in b.subplans ==> && b.subplans[v].Keys == TypesAt(g, b.setup, v, b.log[v])
                            && b.subplans[v].Keys <= b.total
                            && GoodPlan(g, b.subplans[v], b.log[v].under * b.counted))
  }

  ghost predicate AllInstalled(g: Graph, b: Snap, V: set<nat>) {
    && b.subplans.Keys <= V
    && forall v {:trigger Installed(g, b, v)} :: v in V ==> Installed(g, b, v)
  }

  /** What one walk from a fresh colour amounts to. */
  lemma WholeWalk(g: Graph, s: nat, root: nat, a: Snap, b: Snap, V: set<nat>)
    requires ValidGraph(g) && a.seen == {} && a.visits == [] && root in V
    requires Grew(g, s, root, a, b, V) && AllReached(g, s, root, V)
    ensures forall v :: v in V <==> Reaches(g, s, root, v)
    ensures multiset(b.visits) == multiset(V)
  {
    assert GrewBy(g, s, root, a, b, V);
    ReachableIsVisited(g, s, root, V);
  }

  lemma WholeRecord(g: Graph, s: nat, root: nat, a: Snap, b: Snap, V: set<nat>)
    requires ValidGraph(g) && Grew(g, s, root, a, b, V)
    ensures AllRecorded(g, s, root, b, V)
  {
    assert GrewBy(g, s, root, a, b, V);
    forall v <- V
      ensures Record(g, s, root, b, v)
    {
      assert Visited(g, s, root, a, b, V, v);
    }
  }

  /** Which filters a walk over a graph without filters installs, and what they hold. */
  lemma WholeFilters(g: Graph, s: nat, root: nat, a: Snap, b: Snap, V: set<nat>)
    requires ValidGraph(g) && a.seen == {} && a.subplans == map[]
    requires Grew(g, s, root, a, b, V) && Steady(g, b) && GoodSetup(b.setup)
    ensures AllInstalled(g, b, V)
  {
    assert GrewBy(g, s, root, a, b, V);
    forall v <- b.subplans
      ensures v in V
    {
      assert v !in V ==> SameFilter(a, b, v);
    }
    forall v <- V
      ensures Installed(g, b, v)
    {
      assert Visited(g, s, root, a, b, V, v);
      EarlierWithin(b.visits, v);
      TypesAreTotal(g, b, v);
    }
  }

  lemma {:induction false} EarlierWithin(order: seq<nat>, v: nat)
    ensures Earlier(order, v) <= Elements(order)
  {
    if order != [] && order[0] != v {
      EarlierWithin(order[1..], v);
    }
  }

  lemma TypesAreTotal(g: Graph, b: Snap, v: nat)
    requires v < |g| && v in b.log && Steady(g, b) && GoodSetup(b.setup)
    requires b.log[v].before <= Elements(b.visits) && b.log[v].under <= b.seen
    ensures TypesAt(g, b.setup, v, b.log[v]) <= b.total
  {
    SteadyMeans(g, b);
    var S := b.log[v].before + b.log[v].under;
    assert LeafTypes(g, S) <= LeafTypes(g, b.seen);
    assert Of(b.setup.anchors, g[v].rtype) <= b.setup.total && Of(b.setup.anchors, b.setup.any) <= b.setup.total;
  }

  lemma WholeTotals(g: Graph, s: nat, root: nat, a: Snap, b: Snap, V: set<nat>, totals: Totals)
    requires ValidGraph(g) && Grew(g, s, root, a, b, V) && Adds(g, V * b.counted, map[], totals)
    ensures forall t: nat :: Kept(Units(g, V * b.counted, t), Get(totals, t))
    ensures forall t: nat :: Tracked(g, b.setup.total, t) && Units(g, V, t) < TWO32 ==> Get(totals, t) == Units(g, V, t)
  {
    WholeRecord(g, s, root, a, b, V);
    forall t: nat
      ensures Kept(Units(g, V * b.counted, t), Get(totals, t))
      ensures Tracked(g, b.setup.total, t) && Units(g, V, t) < TWO32 ==> Get(totals, t) == Units(g, V, t)
    {
      assert AddsOf(g, V * b.counted, map[], totals, t);
      if Tracked(g, b.setup.total, t) {
        AllCounted(g, s, root, b, V, t);
        UnitsAgree(g, V * b.counted, V, t, |g|);
      }
    }
  }

  lemma AllCounted(g: Graph, s: nat, root: nat, b: Snap, V: set<nat>, t: nat)
    requires ValidGraph(g) && AllRecorded(g, s, root, b, V) && Tracked(g, b.setup.total, t)
    ensures forall v :: 0 <= v < |g| && g[v].rtype == t && v in V ==> v in b.counted
  {
    forall v | 0 <= v < |g| && g[v].rtype == t && v in V
      ensures v in b.counted
    {
      assert Record(g, s, root, b, v);
    }
  }

  /** A type whose every vertex is counted: it was a pruning type from the start, or only leaves
      have it. */
  ghost predicate Tracked(g: Graph, initial: set<nat>, t: nat) {
    t in initial || forall v :: 0 <= v < |g| && g[v].rtype == t ==> g[v].out == []
  }

  lemma {:induction false} UnitsAgree(g: Graph, A: set<nat>, B: set<nat>, t: nat, n: nat)
    requires n <= |g| && forall v :: 0 <= v < n && g[v].rtype == t ==> (v in A <==> v in B)
    ensures UnitsUpTo(g, A, t, n) == UnitsUpTo(g, B, t, n)
  {
    if n > 0 {
      UnitsAgree(g, A, B, t, n - 1);
    }
  }

  lemma ReachableIsVisited(g: Graph, s: nat, root: nat, V: set<nat>)
    requires root in V && Closed(g, s, V, {})
    ensures forall v :: Reaches(g, s, root, v) ==> v in V
  {
    forall v | Reaches(g, s, root, v)
      ensures v in V
    {
      var p :| IsPath(g, s, p) && p[0] == root && p[|p| - 1] == v;
      PathStays(g, s, p, V);
    }
  }

  lemma {:induction false} PathStays(g: Graph, s: nat, p: seq<nat>, V: set<nat>)
    requires IsPath(g, s, p) && p[0] in V && Closed(g, s, V, {})
    ensures p[|p| - 1] in V
  {
    if |p| > 1 {
      assert Linked(g, s, p[0], p[1]);
      PathStays(g, s, p[1..], V);
    }
  }

  // ----- On a tree a filter sees exactly the vertices below its own

  /** No vertex has two parents and the root has none. */
  ghost predicate IsTree(g: Graph, s: nat, root: nat) {
    && (forall p, q, x :: Linked(g, s, p, x) && Linked(g, s, q, x) ==> p == q)
    && forall p :: !Linked(g, s, p, root)
  }

  lemma UnderIsBelow(g: Graph, s: nat, root: nat, v: nat, visit: Visit, x: nat)
    requires IsTree(g, s, root) && GoodVisit(g, s, root, v, visit)
    ensures x in visit.under <==> x != v && Reaches(g, s, v, x)
  {
    if x != v && Reaches(g, s, v, x) {
      var p :| IsPath(g, s, p) && p[0] == v && p[|p| - 1] == x;
      TreePathStays(g, s, root, p, visit.under + {v}, visit.before);
    }
  }

  lemma {:induction false} TreePathStays(g: Graph, s: nat, root: nat, p: seq<nat>, S: set<nat>, B: set<nat>)
    requires IsTree(g, s, root) && Rooted(g, s, root, B) && Closed(g, s, S, B) && S !! B
    requires IsPath(g, s, p) && p[0] in S
    ensures p[|p| - 1] in S
  {
    if |p| > 1 {
      assert Linked(g, s, p[0], p[1]);
      assert p[1] in B ==> p[1] == root || FoundFrom(g, s, B, p[1]);
      assert p[1] in S;
      TreePathStays(g, s, root, p[1..], S, B);
    }
  }

  lemma PlanFromTotals(g: Graph, dfv: Totals, plan: Totals, S: set<nat>)
    requires Adds(g, S, map[], dfv)
    requires forall t <- plan :: plan[t] == Get(dfv, t)
    ensures GoodPlan(g, plan, S)
  {
    forall t <- plan
      ensures Kept(Units(g, S, t), plan[t])
    {
      assert AddsOf(g, S, map[], dfv, t);
    }
  }

  /** The targets of the first `n` edges of `u` in the subsystem are coloured. */
  ghost predicate ChildrenSeen(g: Graph, s: nat, u: nat, n: nat, seen: set<nat>)
    requires u < |g| && n <= |g[u].out|
  {
    forall k :: 0 <= k < n && g[u].out[k].subsystem == s ==> g[u].out[k].target in seen
  }

  lemma MoreChildrenSeen(g: Graph, s: nat, u: nat, n: nat, before: set<nat>, after: set<nat>)
    requires u < |g| && n < |g[u].out| && ChildrenSeen(g, s, u, n, before) && before <= after
    requires g[u].out[n].subsystem == s ==> g[u].out[n].target in after
    ensures ChildrenSeen(g, s, u, n + 1, after)
  {}

  lemma AddsOwn(g: Graph, u: nat, before: Totals)
    requires u < |g| && g[u].size < TWO32
    ensures var t := g[u].rtype; Adds(g, {u}, before, before[t := Get(before, t) + g[u].size % TWO32])
  {
    var r := g[u].rtype;
    var after := before[r := Get(before, r) + g[u].size % TWO32];
    forall t: nat
      ensures AddsOf(g, {u}, before, after, t)
    {
      UnitsOfOne(g, u, t, |g|);
    }
  }
}
