/**
 * The multilevel-id policy: scores of contained resources carry factors of the
 * resources that contain them.  resource/policies/dfu_match_multilevel_id_impl.hpp,
 * as called from dom_dfv in resource/traversers/dfu_impl.cpp.
 */
module MultilevelScore {
  import opened Common

  const INT64_MAX: int := 0x7fff_ffff_ffff_ffff
  const UINT32_MAX: int := 0xffff_ffff

  // ----- calc_factor

  /** std::abs (break_tie % m - 1) */
  function Tie(breakTie: nat, m: nat): nat
    requires m >= 1
  {
    if breakTie % m == 0 then 1 else breakTie % m - 1
  }

  /** The factor without bounds on the integers. */
  function Factor(base: nat, addBy: nat, m: nat, breakTie: nat): nat
    requires m >= 1
  {
    (base + addBy) * m + Tie(breakTie, m)
  }

  lemma DivBounds(a: nat, m: nat, limit: nat)
    requires m >= 1
    ensures a <= limit / m <==> a * m <= limit
  {
    var q := limit / m;
    assert limit == q * m + limit % m;
    if a <= q {
      MulMonotone(a, q, m);
    } else {
      MulMonotone(q + 1, a, m);
      assert (q + 1) * m == q * m + m;
    }
  }

  lemma MulMonotone(a: nat, b: nat, m: nat)
    requires a <= b
    ensures a * m <= b * m
  {
    assert (b - a) * m == b * m - a * m;
  }

  /** calc_factor: no intermediate value leaves 64 bits, and it fails only if the result does. */
  method CalcFactor(base: int, breakTie: int, addBy: nat, m: nat) returns (r: Option<int>)
    requires addBy <= UINT32_MAX && 1 <= m <= UINT32_MAX
    ensures r.Some? <==> base >= 0 && breakTie >= 0 && Factor(base, addBy, m, breakTie) <= INT64_MAX
    ensures r.Some? ==> r.value == Factor(base, addBy, m, breakTie)
  {
    if base < 0 || breakTie < 0 {
      return None;
    }
    Grows(base + addBy, m);
    if base > INT64_MAX - addBy {
      return None;
    }
    var add := base + addBy;
    DivBounds(add, m, INT64_MAX);
    if add > INT64_MAX / m {
      return None;
    }
    var mul := add * m;
    var tie := Tie(breakTie, m);
    if mul > INT64_MAX - tie {
      return None;
    }
    r := Some(mul + tie);
  }

  lemma Grows(a: nat, m: nat)
    requires m >= 1
    ensures a <= a * m
  {
    assert a * m == a + a * (m - 1);
  }

  /** A larger base gives a larger factor, whatever breaks the ties. */
  lemma FactorIncreases(a: nat, b: nat, addBy: nat, m: nat, ta: nat, tb: nat)
    requires m >= 1 && a < b
    ensures Factor(a, addBy, m, ta) < Factor(b, addBy, m, tb)
  {
    MulMonotone(a + addBy + 1, b + addBy, m);
    assert (a + addBy + 1) * m == (a + addBy) * m + m;
    assert Tie(ta, m) < m || (m == 1 && Tie(ta, m) == 1 == Tie(tb, m));
  }

  /** Equal factors come from equal ids and equal tie breakers, so no two ids share a factor. */
  lemma FactorEqual(a: nat, b: nat, addBy: nat, m: nat, ta: nat, tb: nat)
    requires m >= 1
    ensures Factor(a, addBy, m, ta) == Factor(b, addBy, m, tb) <==> a == b && Tie(ta, m) == Tie(tb, m)
  {
    if a < b {
      FactorIncreases(a, b, addBy, m, ta, tb);
    } else if b < a {
      FactorIncreases(b, a, addBy, m, tb, ta);
    }
  }

  // ----- The visits of a traversal

  /** One visit of dom_dfv: what is pruned, what is available and how the match at the vertex turns out are given. */
  datatype Visit = Visit(rtype: string, id: int, uniqId: nat, pruned: bool, avail: int, met: bool, children: Visits)

  datatype Visits = Nil | Cons(head: Visit, tail: Visits)

  datatype ScaleBase = Scale(addBy: nat, multiplyBy: nat)

  type Scale = c: ScaleBase | c.addBy <= UINT32_MAX && 1 <= c.multiplyBy <= UINT32_MAX witness Scale(0, 1)

  type Config = map<string, Scale>

  function FactorOf(c: Scale, v: Visit): nat
    requires v.id >= -1
  {
    Factor(v.id + 1, c.addBy, c.multiplyBy, v.uniqId)
  }

  /** dom_discover_vtx can compute the factor of the vertex. */
  predicate HasFactor(cfg: Config, v: Visit) {
    v.rtype in cfg ==> v.id >= -1 && FactorOf(cfg[v.rtype], v) <= INT64_MAX
  }

  /** The visit goes on to the children: the vertex matches, is free and has its factor. */
  predicate Accepts(cfg: Config, v: Visit) {
    !v.pruned && v.avail != 0 && v.avail != -1 && HasFactor(cfg, v)
  }

  function Own(cfg: Config, v: Visit): int
    requires HasFactor(cfg, v)
  {
    if v.rtype in cfg then FactorOf(cfg[v.rtype], v) else 0
  }

  /** The factor of the last accepted vertex of type `t`, if there is one. */
  function Last(cfg: Config, v: Visit, t: string): Option<int>
    decreases v
  {
    if !Accepts(cfg, v) then None
    else
      var inner := LastIn(cfg, v.children, t);
      if inner.None? && v.rtype == t && t in cfg then Some(Own(cfg, v)) else inner
  }

  function LastIn(cfg: Config, vs: Visits, t: string): Option<int>
    decreases vs
  {
    match vs
    case Nil => None
    case Cons(head, tail) =>
      var later := LastIn(cfg, tail, t);
      if later.None? then Last(cfg, head, t) else later
  }

  function Else(o: Option<int>, d: int): int {
    if o.Some? then o.value else d
  }

  /** What a visit leaves in the total: at each accepted vertex of a factor type, its own factor less that of the
      last accepted vertex of the type below it. */
  function Drift(cfg: Config, v: Visit): int
    decreases v
  {
    if !Accepts(cfg, v) then 0
    else DriftIn(cfg, v.children) + (if v.rtype in cfg
                                     then Own(cfg, v) - Else(LastIn(cfg, v.children, v.rtype), Own(cfg, v))
                                     else 0)
  }

  function DriftIn(cfg: Config, vs: Visits): int
    decreases vs
  {
    match vs
    case Nil => 0
    case Cons(head, tail) => Drift(cfg, head) + DriftIn(cfg, tail)
  }

  /** The scores of the met vertices in the order they are finished, the total being `s` at the start. */
  function Scored(cfg: Config, v: Visit, s: int): seq<int>
    decreases v
  {
    if !Accepts(cfg, v) then []
    else ScoredIn(cfg, v.children, s + Own(cfg, v)) + if v.met then [1 + s + Drift(cfg, v) + v.id + 1] else []
  }

  function ScoredIn(cfg: Config, vs: Visits, s: int): seq<int>
    decreases vs
  {
    match vs
    case Nil => []
    case Cons(head, tail) => Scored(cfg, head, s) + ScoredIn(cfg, tail, s + Drift(cfg, head))
  }

  /** The scores that the policy is for: every met vertex by its own id and the factors of what contains it. */
  function Intended(cfg: Config, v: Visit, around: int): seq<int>
    decreases v
  {
    if !Accepts(cfg, v) then []
    else IntendedIn(cfg, v.children, around + Own(cfg, v)) + if v.met then [1 + around + v.id + 1] else []
  }

  function IntendedIn(cfg: Config, vs: Visits, around: int): seq<int>
    decreases vs
  {
    match vs
    case Nil => []
    case Cons(head, tail) => Intended(cfg, head, around) + IntendedIn(cfg, tail, around)
  }

  // ----- When every visit gives the total back

  /** Every visit in the tree leaves the total as it was. */
  predicate GivesBack(cfg: Config, v: Visit)
    decreases v
  {
    Accepts(cfg, v) ==> Drift(cfg, v) == 0 && GivesBackIn(cfg, v.children)
  }

  predicate GivesBackIn(cfg: Config, vs: Visits)
    decreases vs
  {
    vs.Cons? ==> GivesBack(cfg, vs.head) && GivesBackIn(cfg, vs.tail)
  }

  /** Below every accepted vertex of a factor type, the last accepted vertex of the type has the same factor. */
  predicate SameLast(cfg: Config, v: Visit)
    decreases v
  {
    Accepts(cfg, v) ==>
      && (v.rtype in cfg ==> Else(LastIn(cfg, v.children, v.rtype), Own(cfg, v)) == Own(cfg, v))
      && SameLastIn(cfg, v.children)
  }

  predicate SameLastIn(cfg: Config, vs: Visits)
    decreases vs
  {
    vs.Cons? ==> SameLast(cfg, vs.head) && SameLastIn(cfg, vs.tail)
  }

  lemma {:induction false} GivesBackExactly(cfg: Config, v: Visit)
    ensures GivesBack(cfg, v) <==> SameLast(cfg, v)
    decreases v
  {
    GivesBackInExactly(cfg, v.children);
  }

  lemma {:induction false} GivesBackInExactly(cfg: Config, vs: Visits)
    ensures GivesBackIn(cfg, vs) <==> SameLastIn(cfg, vs)
    ensures GivesBackIn(cfg, vs) ==> DriftIn(cfg, vs) == 0
    decreases vs
  {
    if vs.Cons? {
      GivesBackExactly(cfg, vs.head);
      GivesBackInExactly(cfg, vs.tail);
    }
  }

  /** Then the scores are the intended ones. */
  lemma {:induction false} ScoresAreIntended(cfg: Config, v: Visit, s: int)
    requires SameLast(cfg, v)
    ensures Scored(cfg, v, s) == Intended(cfg, v, s)
    decreases v
  {
    GivesBackExactly(cfg, v);
    if Accepts(cfg, v) {
      ScoresInAreIntended(cfg, v.children, s + Own(cfg, v));
    }
  }

  lemma {:induction false} ScoresInAreIntended(cfg: Config, vs: Visits, s: int)
    requires SameLastIn(cfg, vs)
    ensures ScoredIn(cfg, vs, s) == IntendedIn(cfg, vs, s)
    decreases vs
  {
    if vs.Cons? {
      GivesBackExactly(cfg, vs.head);
      ScoresAreIntended(cfg, vs.head, s);
      ScoresInAreIntended(cfg, vs.tail, s);
    }
  }

  predicate Occurs(v: Visit, t: string)
    decreases v
  {
    v.rtype == t || OccursIn(v.children, t)
  }

  predicate OccursIn(vs: Visits, t: string)
    decreases vs
  {
    vs.Cons? && (Occurs(vs.head, t) || OccursIn(vs.tail, t))
  }

  /** No resource of a factor type contains another of the same type. */
  predicate NoNesting(v: Visit, types: set<string>)
    decreases v
  {
    (v.rtype in types ==> !OccursIn(v.children, v.rtype)) && NoNestingIn(v.children, types)
  }

  predicate NoNestingIn(vs: Visits, types: set<string>)
    decreases vs
  {
    vs.Cons? ==> NoNesting(vs.head, types) && NoNestingIn(vs.tail, types)
  }

  lemma {:induction false} NotNestedIsSame(cfg: Config, v: Visit)
    requires NoNesting(v, cfg.Keys)
    ensures SameLast(cfg, v)
    decreases v
  {
    NotNestedInIsSame(cfg, v.children);
    if v.rtype in cfg {
      NoneInside(cfg, v.children, v.rtype);
    }
  }

  lemma {:induction false} NotNestedInIsSame(cfg: Config, vs: Visits)
    requires NoNestingIn(vs, cfg.Keys)
    ensures SameLastIn(cfg, vs)
    decreases vs
  {
    if vs.Cons? {
      NotNestedIsSame(cfg, vs.head);
      NotNestedInIsSame(cfg, vs.tail);
    }
  }

  lemma {:induction false} NoneInside(cfg: Config, vs: Visits, t: string)
    requires !OccursIn(vs, t)
    ensures LastIn(cfg, vs, t) == None
    decreases vs
  {
    if vs.Cons? {
      NoneInside(cfg, vs.head.children, t);
      NoneInside(cfg, vs.tail, t);
    }
  }

  // ----- The policy

  /** score_factor_t */
  datatype ScoreFactor = ScoreFactor(scale: Scale, factor: int)

  class MultilevelId {
    var factors: map<string, ScoreFactor>
    /** m_multilevel_scores */
    var scores: int

    ghost var scored: seq<int>  // the scores of the met vertices so far

    constructor ()
      ensures factors == map[] && scores == 0 && scored == []
    {
      factors, scores, scored := map[], 0, [];
    }

    function Scales(): (cfg: Config)
      reads this
      ensures cfg.Keys == factors.Keys
    {
      map t | t in factors :: factors[t].scale
    }

    /** add_score_factor */
    method AddScoreFactor(t: string, scale: Scale) returns (ok: bool)
      modifies `factors
      ensures ok <==> t !in old(factors)
      ensures Scales() == if ok then old(Scales())[t := scale] else old(Scales())
    {
      ok := t !in factors;
      if ok {
        factors := factors[t := ScoreFactor(scale, 0)];
      }
    }

    /** dom_discover_vtx: adds the factor of the vertex, and remembers it with its type. */
    method DiscoverVtx(v: Visit) returns (ok: bool)
      modifies `factors, `scores
      ensures Scales() == old(Scales())
      ensures ok <==> HasFactor(Scales(), v)
      ensures !ok ==> factors == old(factors) && scores == old(scores)
      ensures ok ==> scores == old(scores) + Own(Scales(), v)
      ensures forall t <- factors :: factors[t].factor ==
                if ok && t == v.rtype then Own(Scales(), v) else old(factors)[t].factor
    {
      if v.rtype in factors {
        if v.id < -1 {
          return false;
        }
        var f := factors[v.rtype];
        var factor := CalcFactor(v.id + 1, v.uniqId, f.scale.addBy, f.scale.multiplyBy);
        if factor.None? {
          return false;
        }
        factors := factors[v.rtype := f.(factor := factor.value)];
        scores := scores + factor.value;
      }
      ok := true;
    }

    /** dom_finish_vtx: takes off the factor remembered with the type; the score of the vertex, None if not met. */
    method FinishVtx(v: Visit) returns (overall: Option<int>)
      modifies `scores, `scored
      ensures scores == old(scores) - if v.rtype in factors then factors[v.rtype].factor else 0
      ensures overall == if v.met then Some(1 + scores + v.id + 1) else None
      ensures scored == old(scored) + if v.met then [1 + scores + v.id + 1] else []
    {
      if v.rtype in factors {
        scores := scores - factors[v.rtype].factor;
      }
      overall := if v.met then Some(1 + scores + v.id + 1) else None;
      scored := scored + if v.met then [1 + scores + v.id + 1] else [];
    }

    /** dom_dfv, whatever contains what: the total moves by the drift of the visit. */
    method DomDfv(v: Visit) returns (overall: Option<int>)
      modifies this
      ensures Scales() == old(Scales())
      ensures scores == old(scores) + Drift(Scales(), v)
      ensures forall t <- factors :: factors[t].factor == Else(Last(Scales(), v, t), old(factors)[t].factor)
      ensures overall.Some? <==> Accepts(Scales(), v) && v.met
      ensures overall.Some? ==> overall.value == 1 + scores + v.id + 1
      ensures scored == old(scored) + Scored(Scales(), v, old(scores))
      decreases v
    {
      // by_avail makes the test for free resources before, dom_dfv once more after the children.
      if v.pruned || v.avail == 0 || v.avail == -1 {
        return None;
      }
      var ok := DiscoverVtx(v);
      if !ok {
        return None;
      }
      VisitAll(v.children);
      overall := FinishVtx(v);
    }

    /** The children, in whatever order and number they are explored. */
    method VisitAll(vs: Visits)
      modifies this
      ensures Scales() == old(Scales())
      ensures scores == old(scores) + DriftIn(Scales(), vs)
      ensures forall t <- factors :: factors[t].factor == Else(LastIn(Scales(), vs, t), old(factors)[t].factor)
      ensures scored == old(scored) + ScoredIn(Scales(), vs, old(scores))
      decreases vs
    {
      if vs.Cons? {
        var overall := DomDfv(vs.head);
        VisitAll(vs.tail);
      }
    }

    /** If no accepted vertex disturbs the factor of another, a traversal gives every met vertex the intended score
        and leaves the total as it was. */
    method Traverse(v: Visit) returns (overall: Option<int>)
      requires SameLast(Scales(), v)
      modifies this
      ensures scores == old(scores)
      ensures scored == old(scored) + Intended(Scales(), v, old(scores))
      ensures overall.Some? ==> overall.value == 1 + old(scores) + v.id + 1
    {
      GivesBackExactly(Scales(), v);
      ScoresAreIntended(Scales(), v, scores);
      overall := DomDfv(v);
    }
  }

  // ----- Nested nodes under the one factor that is configured

  const NODE_CENTRIC: Scale := Scale(1, 10000)

  /**
   * A node inside a node: the inner factor, which replaced the outer one, is taken off twice.  The total is off by
   * the difference of the factors, and is right only for equal ids and tie breakers.
   */
  method NestedNodes(outer: Visit, inner: Visit) returns (total: int)
    requires outer.rtype == inner.rtype == "node" && outer.children == Cons(inner, Nil) && inner.children == Nil
    requires var cfg := map["node" := NODE_CENTRIC]; Accepts(cfg, outer) && Accepts(cfg, inner)
    ensures total == FactorOf(NODE_CENTRIC, outer) - FactorOf(NODE_CENTRIC, inner)
    ensures total == 0 <==> outer.id == inner.id && Tie(outer.uniqId, 10000) == Tie(inner.uniqId, 10000)
  {
    ghost var cfg := map["node" := NODE_CENTRIC];
    var p := new MultilevelId();
    var ok := p.AddScoreFactor("node", NODE_CENTRIC);
    assert p.Scales() == cfg;
    NestedDrift(cfg, outer, inner);
    var overall := p.DomDfv(outer);
    total := p.scores;
    FactorEqual(outer.id + 1, inner.id + 1, 1, 10000, outer.uniqId, inner.uniqId);
  }

  lemma NestedDrift(cfg: Config, outer: Visit, inner: Visit)
    requires outer.rtype == inner.rtype && inner.rtype in cfg && Accepts(cfg, outer) && Accepts(cfg, inner)
    requires outer.children == Cons(inner, Nil) && inner.children == Nil
    ensures Drift(cfg, outer) == Own(cfg, outer) - Own(cfg, inner)
  {
    var t := inner.rtype;
    assert LastIn(cfg, Nil, t) == None;
    assert Last(cfg, inner, t) == Some(Own(cfg, inner));
    assert LastIn(cfg, outer.children, t) == Some(Own(cfg, inner));
    assert DriftIn(cfg, Nil) == 0;
    assert Drift(cfg, inner) == 0;
    assert DriftIn(cfg, outer.children) == 0;
  }
}
