/**
 * Replaying an allocation: the update half of
 * resource/readers/resource_reader_rv1exec.cpp.  An R is applied to the vertex
 * planners and to their allocation or reservation tables, and undone when any
 * part of it cannot be applied.
 */
module Rv1Update {
  import opened Common
  import opened Planning

  type Vtx = nat

  datatype Info = Info(rtype: string, rank: int, id: int, size: nat)

  /** The part of the graph and its metadata that an update only reads. */
  datatype GraphData = GraphData(info: map<Vtx, Info>, paths: map<Vtx, string>, byPath: map<string, seq<Vtx>>,
                                 byRank: map<int, seq<Vtx>>, outEdges: map<Vtx, seq<Vtx>>, root: Option<Vtx>)

  /** schedule_t: the planner, and the span of each job. */
  datatype Schedule = Schedule(plans: Option<Planner>, allocations: map<int, int>, reservations: map<int, int>)

  /** The fixed part of updater_data. */
  datatype Job = Job(jobid: int, at: int, duration: nat, reserved: bool)

  datatype Host = Host(name: string, suffix: Option<int>)

  /** One member of `children`: None stands for an id string that does not decode. */
  datatype Children = Children(rtype: string, ids: Option<seq<nat>>)

  datatype Entry = Entry(ranks: Option<seq<nat>>, children: seq<Children>)

  datatype Rv1 = Rv1(rlite: seq<Entry>, nodelist: seq<Host>)

  const NODE: string := "node"

  ghost predicate NoDup<T>(s: seq<T>) {
    forall i, j :: 0 <= i < j < |s| ==> s[i] != s[j]
  }

  /** What the readers that build the graph maintain. */
  ghost predicate GoodGraph(g: GraphData) {
    && g.paths.Keys == g.info.Keys && g.outEdges.Keys == g.info.Keys
    && (forall p, i :: p in g.byPath && 0 <= i < |g.byPath[p]| ==> g.byPath[p][i] in g.info)
    && (forall r :: r in g.byRank ==> NoDup(g.byRank[r]))
    && (forall r, i :: r in g.byRank && 0 <= i < |g.byRank[r]| ==> g.byRank[r][i] in g.info && g.info[g.byRank[r][i]].rank == r)
    && (forall v :: v in g.info ==> g.info[v].rank in g.byRank && v in g.byRank[g.info[v].rank])
    && (g.root.Some? ==> g.root.value in g.info)
  }

  type Graph = g: GraphData | GoodGraph(g) witness GraphData(map[], map[], map[], map[], map[], None)

  ghost predicate GoodSchedules(g: Graph, s: map<Vtx, Schedule>) {
    && s.Keys == g.info.Keys
    && forall v :: v in s && s[v].plans.Some? ==> PlannerOk(s[v].plans.value) && s[v].plans.value.total == g.info[v].size
  }

  // ----- Finding a vertex

  function Digit(n: nat): char
    requires n < 10
  {
    "0123456789"[n]
  }

  /** std::to_string */
  function Decimal(n: nat): string {
    if n < 10 then [Digit(n)] else Decimal(n / 10) + [Digit(n % 10)]
  }

  predicate Matches(g: Graph, v: Vtx, rtype: string, id: int, rank: int) {
    v in g.info && g.info[v] == Info(rtype, rank, id, 1)
  }

  function FirstMatch(g: Graph, vs: seq<Vtx>, rtype: string, id: int, rank: int): (r: Option<Vtx>)
    ensures r.Some? ==> Matches(g, r.value, rtype, id, rank)
  {
    if vs == [] then None
    else if Matches(g, vs[0], rtype, id, rank) then Some(vs[0])
    else FirstMatch(g, vs[1..], rtype, id, rank)
  }

  /** The vertex called `name` below `parent` that has the given properties and size 1. */
  function Lookup(g: Graph, parent: Vtx, name: string, rtype: string, id: int, rank: int): (r: Option<Vtx>)
    requires parent in g.paths
    ensures r.Some? ==> Matches(g, r.value, rtype, id, rank)
  {
    var path := g.paths[parent] + "/" + name;
    if path in g.byPath then FirstMatch(g, g.byPath[path], rtype, id, rank) else None
  }

  method FindVertex(g: Graph, parent: Vtx, name: string, rtype: string, id: int, rank: int) returns (r: Option<Vtx>)
    requires parent in g.info
    ensures r == Lookup(g, parent, name, rtype, id, rank)
  {
    var path := g.paths[parent] + "/" + name;
    if path !in g.byPath {
      return None;
    }
    var vs := g.byPath[path];
    for i := 0 to |vs|
      invariant FirstMatch(g, vs, rtype, id, rank) == FirstMatch(g, vs[i..], rtype, id, rank)
    {
      assert vs[i..][1..] == vs[i + 1..];
      if g.info[vs[i]] == Info(rtype, rank, id, 1) {
        return Some(vs[i]);
      }
    }
    assert vs[|vs|..] == [];
    r := None;
  }

  /** build_rmap: the listed ranks, in ascending order, index the node list. */
  function Listed(rlite: seq<Entry>): set<nat> {
    set i, r | 0 <= i < |rlite| && rlite[i].ranks.Some? && r in rlite[i].ranks.value :: r
  }

  function Smaller(ids: set<nat>, bound: int): set<nat> {
    set q | q in ids && q < bound
  }

  function Index(ids: set<nat>, id: int): nat {
    |Smaller(ids, id)|
  }

  method BuildRmap(rlite: seq<Entry>) returns (r: Option<map<nat, nat>>)
    ensures r.None? <==> exists i :: 0 <= i < |rlite| && rlite[i].ranks.None?
    ensures r.Some? ==> r.value == map q | q in Listed(rlite) :: Index(Listed(rlite), q)
  {
    var ids: set<nat> := {};
    for k := 0 to |rlite|
      invariant ids == Listed(rlite[..k])
      invariant forall i :: 0 <= i < k ==> rlite[i].ranks.Some?
    {
      if rlite[k].ranks.None? {
        return None;
      }
      ghost var before := ids;
      var ranks := rlite[k].ranks.value;
      for j := 0 to |ranks|
        invariant ids == before + set q | q in ranks[..j]
      {
        ids := ids + {ranks[j]};
      }
      assert ranks[..|ranks|] == ranks;
      ListedGrows(rlite, k);
    }
    assert rlite[..|rlite|] == rlite;
    var rmap := Number(ids);
    r := Some(rmap);
  }

  lemma ListedGrows(rlite: seq<Entry>, k: nat)
    requires k < |rlite| && rlite[k].ranks.Some?
    ensures Listed(rlite[..k + 1]) == Listed(rlite[..k]) + set q | q in rlite[k].ranks.value
  {
    var a, b := rlite[..k], rlite[..k + 1];
    assert forall i :: 0 <= i < k ==> a[i] == b[i];
    assert b[k] == rlite[k];
  }

  /** Numbers the ids from 0 in ascending order. */
  method Number(ids: set<nat>) returns (rmap: map<nat, nat>)
    ensures rmap == map q | q in ids :: Index(ids, q)
  {
    rmap := map[];
    var todo, i := ids, 0;
    ghost var bound := 0;
    assert Smaller(ids, 0) == {};
    while todo != {}
      invariant Numbered(ids, rmap, todo, i, bound)
      decreases |todo|
    {
      var rank := IdsetFirst(todo);
      NumberNext(ids, rmap, todo, i, bound, rank);
      rmap, todo, i, bound := rmap[rank := i], todo - {rank}, i + 1, rank + 1;
    }
  }

  /** The ids below `bound` have their numbers. */
  ghost predicate Numbered(ids: set<nat>, rmap: map<nat, nat>, todo: set<nat>, i: nat, bound: nat) {
    && todo == ids - Smaller(ids, bound) && i == Index(ids, bound) && rmap.Keys == Smaller(ids, bound)
    && forall q :: q in rmap ==> rmap[q] == Index(ids, q)
  }

  lemma NumberNext(ids: set<nat>, rmap: map<nat, nat>, todo: set<nat>, i: nat, bound: nat, rank: nat)
    requires Numbered(ids, rmap, todo, i, bound) && rank in todo && IsLeast(rank, todo)
    ensures Numbered(ids, rmap[rank := i], todo - {rank}, i + 1, rank + 1)
  {
    SmallerNext(ids, bound, rank);
  }

  /** idset_first */
  method IdsetFirst(ids: set<nat>) returns (m: nat)
    requires ids != {}
    ensures m in ids && IsLeast(m, ids)
  {
    ghost var least := Least(ids);
    m :| m in ids && IsLeast(m, ids);
  }

  predicate IsLeast(m: nat, s: set<nat>) {
    forall q :: q in s ==> m <= q
  }

  lemma SmallerNext(ids: set<nat>, bound: nat, rank: nat)
    requires rank in ids - Smaller(ids, bound) && IsLeast(rank, ids - Smaller(ids, bound))
    ensures Index(ids, rank) == Index(ids, bound)
    ensures Smaller(ids, rank + 1) == Smaller(ids, bound) + {rank}
    ensures Index(ids, rank + 1) == Index(ids, bound) + 1
  {
    var rest := ids - Smaller(ids, bound);
    assert forall q :: q in ids && q < rank ==> q !in rest;
    assert Smaller(ids, rank) == Smaller(ids, bound);
    assert Smaller(ids, rank + 1) == Smaller(ids, bound) + {rank};
  }

  lemma {:induction false} Least(s: set<nat>) returns (m: nat)
    requires s != {}
    ensures m in s && IsLeast(m, s)
    decreases |s|
  {
    m :| m in s;
    if s != {m} {
      var n := Least(s - {m});
      assert forall q :: q in s ==> q == m || q in s - {m};
      if n < m {
        m := n;
      }
    }
  }

  // ----- Taking a vertex and giving it back

  function Tags(s: Schedule, reserved: bool): map<int, int> {
    if reserved then s.reservations else s.allocations
  }

  function WithTags(s: Schedule, reserved: bool, tags: map<int, int>): Schedule {
    if reserved then s.(reservations := tags) else s.(allocations := tags)
  }

  /** The schedule after a full-size span for the job, tagged; None if the planner refuses. */
  function Take(s: Schedule, job: Job, size: nat): (r: Option<Schedule>) {
    match s.plans
    case None => None
    case Some(p) =>
      match AddSpan(p, job.at, job.duration, size)
      case None => None
      case Some(q) =>
        Some(WithTags(s.(plans := Some(q)), job.reserved, Tags(s, job.reserved)[job.jobid := q.counter]))
  }

  /** The schedule after removing the job's tag and the span it names. */
  function Untake(s: Schedule, job: Job): (r: Option<Schedule>) {
    var tags := Tags(s, job.reserved);
    if s.plans.None? || job.jobid !in tags then None
    else
      match RemSpan(s.plans.value, tags[job.jobid])
      case None => None
      case Some(q) => Some(WithTags(s.(plans := Some(q)), job.reserved, tags - {job.jobid}))
  }

  /** Everything of a schedule but the id counter of its planner. */
  function Books(s: Schedule): (Option<(int, int, int, seq<Span>)>, map<int, int>, map<int, int>) {
    (match s.plans case None => None case Some(p) => Some((p.planStart, p.planEnd, p.total, p.spans)),
     s.allocations, s.reservations)
  }

  ghost predicate Good(s: Schedule, size: nat) {
    s.plans.Some? ==> PlannerOk(s.plans.value) && s.plans.value.total == size
  }

  /** A taken vertex holds one span more, of its full size, over the job's time, under the job's tag. */
  lemma TakeMeans(s: Schedule, job: Job, size: nat)
    requires Good(s, size) && Take(s, job, size).Some?
    ensures var t := Take(s, job, size).value;
            var id := s.plans.value.counter + 1;
            && Good(t, size)
            && t.plans.value.spans == s.plans.value.spans + [Span(id, job.at, job.at + job.duration, size)]
            && Tags(t, job.reserved) == Tags(s, job.reserved)[job.jobid := id]
            && Tags(t, !job.reserved) == Tags(s, !job.reserved)
  {
    AddSpanHolds(s.plans.value, job.at, job.duration, size);
  }

  /** Giving back restores the spans; it restores the tags exactly when the job had none before. */
  lemma UntakeTake(s: Schedule, job: Job, size: nat)
    requires Good(s, size) && Take(s, job, size).Some?
    ensures var r := Untake(Take(s, job, size).value, job);
            && r.Some? && Good(r.value, size)
            && Books(r.value) == Books(WithTags(s, job.reserved, Tags(s, job.reserved) - {job.jobid}))
    ensures Books(Untake(Take(s, job, size).value, job).value) == Books(s) <==> job.jobid !in Tags(s, job.reserved)
  {
    var t := Take(s, job, size).value;
    RemUndoesAdd(s.plans.value, job.at, job.duration, size);
    var tags := Tags(s, job.reserved);
    assert tags[job.jobid := t.plans.value.counter] - {job.jobid} == tags - {job.jobid};
    assert job.jobid !in tags ==> tags - {job.jobid} == tags;
    var r := Untake(t, job).value;
    assert Tags(r, job.reserved) == tags - {job.jobid};
    forall u: int
      ensures 0 <= Remaining(r.plans.value, u)
    {
      assert 0 <= Remaining(s.plans.value, u);
    }
  }

  /** A vertex cannot be taken twice. */
  lemma NotTwice(s: Schedule, job: Job, size: nat)
    requires Good(s, size) && size > 0 && Take(s, job, size).Some?
    ensures Take(Take(s, job, size).value, job, size) == None
  {
    FullRefuses(s.plans.value, job.at, job.duration, size);
  }

  // ----- How far an update has come

  /** A taken vertex holds the job's span; any other is as it was before the update. */
  ghost predicate VertexState(g: Graph, pre: map<Vtx, Schedule>, cur: map<Vtx, Schedule>, took: set<Vtx>, job: Job, v: Vtx)
    requires v in g.info
  {
    && v in pre && v in cur && Good(pre[v], g.info[v].size)
    && if v in took
       then g.info[v].size > 0 && Take(pre[v], job, g.info[v].size) == Some(cur[v])
       else cur[v] == pre[v]
  }

  ghost predicate Ahead(g: Graph, pre: map<Vtx, Schedule>, cur: map<Vtx, Schedule>, took: set<Vtx>, job: Job) {
    && cur.Keys == pre.Keys == g.info.Keys && took <= g.info.Keys
    && forall v {:trigger VertexState(g, pre, cur, took, job, v)} :: v in g.info ==> VertexState(g, pre, cur, took, job, v)
  }

  /** The taken vertices of a rank are recorded under it, once each. */
  ghost predicate RankRecord(g: Graph, updated: map<int, seq<Vtx>>, took: set<Vtx>, r: int) {
    && OfRank(g, took, r) == (if r in updated then Elements(updated[r]) else {})
    && (r in updated ==> updated[r] != [] && NoDup(updated[r]))
  }

  ghost function OfRank(g: Graph, vs: set<Vtx>, r: int): set<Vtx> {
    set v | v in vs && v in g.info && g.info[v].rank == r
  }

  ghost predicate Recorded(g: Graph, updated: map<int, seq<Vtx>>, took: set<Vtx>) {
    forall r {:trigger RankRecord(g, updated, took, r)} :: RankRecord(g, updated, took, r)
  }

  function Push(updated: map<int, seq<Vtx>>, r: int, v: Vtx): map<int, seq<Vtx>> {
    updated[r := (if r in updated then updated[r] else []) + [v]]
  }

  /** A vertex that can still be taken has not been taken. */
  lemma NotYet(g: Graph, pre: map<Vtx, Schedule>, cur: map<Vtx, Schedule>, took: set<Vtx>, job: Job, v: Vtx)
    requires Ahead(g, pre, cur, took, job) && v in g.info
    requires Take(cur[v], job, g.info[v].size).Some?
    ensures v !in took && cur[v] == pre[v]
  {
    assert VertexState(g, pre, cur, took, job, v);
    if v in took {
      NotTwice(pre[v], job, g.info[v].size);
    }
  }

  lemma TakeKeepsAhead(g: Graph, pre: map<Vtx, Schedule>, cur: map<Vtx, Schedule>, took: set<Vtx>, job: Job, v: Vtx)
    requires Ahead(g, pre, cur, took, job) && v in g.info && g.info[v].size > 0
    requires Take(cur[v], job, g.info[v].size).Some?
    ensures v !in took
    ensures Ahead(g, pre, cur[v := Take(cur[v], job, g.info[v].size).value], took + {v}, job)
  {
    NotYet(g, pre, cur, took, job, v);
    var next := cur[v := Take(cur[v], job, g.info[v].size).value];
    forall u | u in g.info
      ensures VertexState(g, pre, next, took + {v}, job, u)
    {
      assert VertexState(g, pre, cur, took, job, u);
    }
  }

  lemma PushKeepsRecord(g: Graph, updated: map<int, seq<Vtx>>, took: set<Vtx>, v: Vtx)
    requires Recorded(g, updated, took) && v in g.info && v !in took
    ensures Recorded(g, Push(updated, g.info[v].rank, v), took + {v})
  {
    var r := g.info[v].rank;
    var after := Push(updated, r, v);
    forall q
      ensures RankRecord(g, after, took + {v}, q)
    {
      assert RankRecord(g, updated, took, q);
      if q == r {
        var was := if r in updated then updated[r] else [];
        assert v !in Elements(was);
        assert Elements(after[r]) == Elements(was) + {v};
        assert OfRank(g, took + {v}, r) == OfRank(g, took, r) + {v};
      } else {
        assert OfRank(g, took + {v}, q) == OfRank(g, took, q);
      }
    }
  }

  ghost function Elements(s: seq<Vtx>): set<Vtx> {
    set u | u in s
  }

  // ----- What an R asks for

  /** The vertices, other than nodes, that a type and its ids name below a node. */
  ghost function Named(g: Graph, node: Vtx, rank: int, rtype: string, ids: seq<nat>): (s: set<Vtx>)
    requires node in g.paths
    ensures forall v :: v in s ==> v in g.info && g.info[v].rank == rank && g.info[v].rtype != NODE
  {
    if rtype == NODE || ids == [] then {}
    else
      Named(g, node, rank, rtype, ids[..|ids| - 1]) +
      match Child(g, node, rank, rtype, ids[|ids| - 1]) case None => {} case Some(v) => {v}
  }

  ghost function ChildSet(g: Graph, node: Vtx, rank: int, c: Children): (s: set<Vtx>)
    requires node in g.paths
    ensures forall v :: v in s ==> v in g.info && g.info[v].rank == rank && g.info[v].rtype != NODE
  {
    if c.ids.None? then {} else Named(g, node, rank, c.rtype, c.ids.value)
  }

  function Child(g: Graph, node: Vtx, rank: int, rtype: string, id: nat): (r: Option<Vtx>)
    requires node in g.paths
    ensures r.Some? ==> Matches(g, r.value, rtype, id, rank)
  {
    Lookup(g, node, rtype + Decimal(id), rtype, id, rank)
  }

  ghost function Under(g: Graph, node: Vtx, rank: int, cs: seq<Children>): (s: set<Vtx>)
    requires node in g.paths
    ensures forall v :: v in s ==> v in g.info && g.info[v].rank == rank && g.info[v].rtype != NODE
  {
    if cs == [] then {} else Under(g, node, rank, cs[..|cs| - 1]) + ChildSet(g, node, rank, cs[|cs| - 1])
  }

  /** The node vertex of a rank: its host name is looked up below the cluster vertex. */
  function NodeOf(g: Graph, r: Rv1, rank: int): (v: Option<Vtx>)
    ensures v.Some? ==> v.value in g.info && g.info[v.value].rank == rank && g.info[v.value].rtype == NODE
  {
    var i := Index(Listed(r.rlite), rank);
    if g.root.None? || i >= |r.nodelist| || r.nodelist[i].suffix.None? then None
    else Lookup(g, g.root.value, r.nodelist[i].name, NODE, r.nodelist[i].suffix.value, rank)
  }

  ghost function Nodes(g: Graph, r: Rv1, ranks: seq<nat>): set<Vtx> {
    if ranks == [] then {}
    else
      Nodes(g, r, ranks[..|ranks| - 1]) +
      match NodeOf(g, r, ranks[|ranks| - 1]) case None => {} case Some(v) => {v}
  }

  ghost function BelowRanks(g: Graph, r: Rv1, ranks: seq<nat>, cs: seq<Children>): set<Vtx>
  {
    if ranks == [] then {}
    else
      var rank := ranks[|ranks| - 1];
      BelowRanks(g, r, ranks[..|ranks| - 1], cs) +
      match NodeOf(g, r, rank) case None => {} case Some(v) => Under(g, v, rank, cs)
  }

  /** Every vertex, other than nodes, that some entry lists. */
  ghost function ListedVertices(g: Graph, r: Rv1, entries: seq<Entry>): set<Vtx>
  {
    if entries == [] then {}
    else
      var e := entries[|entries| - 1];
      ListedVertices(g, r, entries[..|entries| - 1]) +
      if e.ranks.None? then {} else BelowRanks(g, r, e.ranks.value, e.children)
  }

  ghost function ListedNodes(g: Graph, r: Rv1, entries: seq<Entry>): set<Vtx>
  {
    if entries == [] then {}
    else
      var e := entries[|entries| - 1];
      ListedNodes(g, r, entries[..|entries| - 1]) + if e.ranks.None? then {} else Nodes(g, r, e.ranks.value)
  }

  /** The other vertices of a vertex's rank. */
  ghost function Others(g: Graph, v: Vtx): set<Vtx>
    requires v in g.info
  {
    set u | u in g.byRank[g.info[v].rank] && u != v
  }

  /** To be taken: the listed vertices, and the listed nodes all of whose rank is listed. */
  ghost predicate Wanted(g: Graph, listed: set<Vtx>, nodes: set<Vtx>, v: Vtx)
    requires v in g.info
  {
    v in listed || (v in nodes && Others(g, v) <= listed)
  }

  ghost predicate Goal(g: Graph, listed: set<Vtx>, nodes: set<Vtx>, took: set<Vtx>) {
    forall v {:trigger Wanted(g, listed, nodes, v)} :: v in g.info ==> (v in took <==> Wanted(g, listed, nodes, v))
  }

  ghost predicate AreNodes(g: Graph, r: Rv1, nodes: set<Vtx>) {
    forall v :: v in nodes ==> v in g.info && NodeOf(g, r, g.info[v].rank) == Some(v)
  }

  /** One more rank, whose node was still free. */
  lemma VisitStep(g: Graph, r: Rv1, listed: set<Vtx>, nodes: set<Vtx>, took: set<Vtx>, node: Vtx, below: set<Vtx>, after: set<Vtx>)
    requires Goal(g, listed, nodes, took) && AreNodes(g, r, nodes + {node}) && node !in took
    requires forall v :: v in below ==> v in g.info && g.info[v].rank == g.info[node].rank
    requires after == took + below + if Others(g, node) <= took + below then {node} else {}
    ensures Goal(g, listed + below, nodes + {node}, after) && AreNodes(g, r, nodes + {node})
  {
    var rank := g.info[node].rank;
    forall v | v in g.info
      ensures v in after <==> Wanted(g, listed + below, nodes + {node}, v)
    {
      assert v in took <==> Wanted(g, listed, nodes, v);
      if v == node {
        OwnRank(g, r, listed, nodes, took, node);
      } else if v in nodes && g.info[v].rank != rank {
        assert forall u :: u in Others(g, v) ==> g.info[u].rank == g.info[v].rank;
        assert Others(g, v) <= listed + below ==> Others(g, v) <= listed;
      }
    }
  }

  /** Within the rank of a node, what is taken is what is listed. */
  lemma OwnRank(g: Graph, r: Rv1, listed: set<Vtx>, nodes: set<Vtx>, took: set<Vtx>, node: Vtx)
    requires Goal(g, listed, nodes, took) && AreNodes(g, r, nodes + {node})
    ensures forall u :: u in Others(g, node) ==> (u in took <==> u in listed)
  {
    forall u | u in Others(g, node)
      ensures u in took <==> u in listed
    {
      assert g.info[u].rank == g.info[node].rank;
      assert u in took <==> Wanted(g, listed, nodes, u);
    }
  }

  /** The count test of update_exclusivity decides whether the rest of the rank is taken. */
  lemma CountIsAll(g: Graph, updated: map<int, seq<Vtx>>, took: set<Vtx>, node: Vtx)
    requires Recorded(g, updated, took) && took <= g.info.Keys && node in g.info && node !in took
    requires g.info[node].rank in updated
    ensures var rank := g.info[node].rank;
            |updated[rank]| == |g.byRank[rank]| - 1 <==> Others(g, node) <= took
  {
    var rank := g.info[node].rank;
    var mine := OfRank(g, took, rank);
    assert RankRecord(g, updated, took, rank);
    SetSize(updated[rank]);
    SetSize(g.byRank[rank]);
    assert Elements(g.byRank[rank]) == Others(g, node) + {node};
    assert mine <= Others(g, node);
    if |mine| == |Others(g, node)| {
      SubsetSize(mine, Others(g, node));
    }
    if Others(g, node) <= took {
      assert mine == Others(g, node);
    }
  }

  lemma {:induction false} SetSize(s: seq<Vtx>)
    requires NoDup(s)
    ensures |Elements(s)| == |s|
  {
    if s != [] {
      var n := |s| - 1;
      SetSize(s[..n]);
      assert Elements(s) == Elements(s[..n]) + {s[n]};
    }
  }

  lemma {:induction false} SubsetSize(a: set<Vtx>, b: set<Vtx>)
    requires a <= b && |a| == |b|
    ensures a == b
  {
    if a != {} {
      var x :| x in a;
      SubsetSize(a - {x}, b - {x});
    }
  }

  // ----- When an R can be applied

  /** The planner of the vertex can hold the job. */
  ghost predicate Free(g: Graph, pre: map<Vtx, Schedule>, job: Job, v: Vtx)
    requires v in g.info
  {
    v in pre && Take(pre[v], job, g.info[v].size).Some?
  }

  /** The name resolved to a vertex that is free, not taken yet and below `parent`. */
  ghost predicate CanGrant(g: Graph, pre: map<Vtx, Schedule>, job: Job, took: set<Vtx>, parent: Vtx, v: Option<Vtx>)
    requires parent in g.info
  {
    v.Some? && v.value in g.info && v.value !in took && Free(g, pre, job, v.value) && v.value in g.outEdges[parent]
  }

  ghost predicate IdOk(g: Graph, pre: map<Vtx, Schedule>, job: Job, node: Vtx, rank: int, rtype: string, ids: seq<nat>,
                       took: set<Vtx>, k: nat)
    requires node in g.info && k < |ids|
  {
    CanGrant(g, pre, job, took + Named(g, node, rank, rtype, ids[..k]), node, Child(g, node, rank, rtype, ids[k]))
  }

  /** The first `n` ids of a type can be granted one after the other. */
  ghost predicate IdsOk(g: Graph, pre: map<Vtx, Schedule>, job: Job, node: Vtx, rank: int, rtype: string, ids: seq<nat>,
                        took: set<Vtx>, n: nat)
    requires node in g.info && n <= |ids|
  {
    forall k {:trigger IdOk(g, pre, job, node, rank, rtype, ids, took, k)} ::
      0 <= k < n ==> IdOk(g, pre, job, node, rank, rtype, ids, took, k)
  }

  ghost predicate ChildrenOk(g: Graph, pre: map<Vtx, Schedule>, job: Job, node: Vtx, rank: int, c: Children,
                             took: set<Vtx>)
    requires node in g.info
  {
    c.ids.Some? && IdsOk(g, pre, job, node, rank, c.rtype, c.ids.value, took, |c.ids.value|)
  }

  ghost predicate TypeOk(g: Graph, pre: map<Vtx, Schedule>, job: Job, node: Vtx, rank: int, cs: seq<Children>,
                         took: set<Vtx>, k: nat)
    requires node in g.info && k < |cs|
  {
    ChildrenOk(g, pre, job, node, rank, cs[k], took + Under(g, node, rank, cs[..k]))
  }

  /** So can all that is listed under the first `n` types. */
  ghost predicate TypesOk(g: Graph, pre: map<Vtx, Schedule>, job: Job, node: Vtx, rank: int, cs: seq<Children>,
                          took: set<Vtx>, n: nat)
    requires node in g.info && n <= |cs|
  {
    forall k {:trigger TypeOk(g, pre, job, node, rank, cs, took, k)} ::
      0 <= k < n ==> TypeOk(g, pre, job, node, rank, cs, took, k)
  }

  /** The host of the rank is a node that can be granted, so can its children, and then its rank has a taken vertex. */
  ghost predicate RankOk(g: Graph, pre: map<Vtx, Schedule>, job: Job, r: Rv1, rank: int, cs: seq<Children>,
                         took: set<Vtx>)
    requires g.root.Some?
  {
    var node := NodeOf(g, r, rank);
    && rank in Listed(r.rlite) && CanGrant(g, pre, job, took, g.root.value, node)
    && TypesOk(g, pre, job, node.value, rank, cs, took, |cs|)
    && OfRank(g, took + Under(g, node.value, rank, cs), rank) != {}
  }

  /** The taken vertices after one more rank. */
  ghost function AfterRank(g: Graph, r: Rv1, rank: int, cs: seq<Children>, took: set<Vtx>): set<Vtx> {
    match NodeOf(g, r, rank)
    case None => took
    case Some(node) =>
      var more := took + Under(g, node, rank, cs);
      more + if Others(g, node) <= more then {node} else {}
  }

  ghost function AfterRanks(g: Graph, r: Rv1, ranks: seq<nat>, cs: seq<Children>, took: set<Vtx>): set<Vtx> {
    if ranks == [] then took
    else AfterRank(g, r, ranks[|ranks| - 1], cs, AfterRanks(g, r, ranks[..|ranks| - 1], cs, took))
  }

  ghost predicate NthRankOk(g: Graph, pre: map<Vtx, Schedule>, job: Job, r: Rv1, ranks: seq<nat>, cs: seq<Children>,
                            took: set<Vtx>, k: nat)
    requires g.root.Some? && k < |ranks|
  {
    RankOk(g, pre, job, r, ranks[k], cs, AfterRanks(g, r, ranks[..k], cs, took))
  }

  ghost predicate RanksOk(g: Graph, pre: map<Vtx, Schedule>, job: Job, r: Rv1, ranks: seq<nat>, cs: seq<Children>,
                          took: set<Vtx>, n: nat)
    requires g.root.Some? && n <= |ranks|
  {
    forall k {:trigger NthRankOk(g, pre, job, r, ranks, cs, took, k)} ::
      0 <= k < n ==> NthRankOk(g, pre, job, r, ranks, cs, took, k)
  }

  ghost function AfterEntries(g: Graph, r: Rv1, entries: seq<Entry>): set<Vtx> {
    if entries == [] then {}
    else
      var e, took := entries[|entries| - 1], AfterEntries(g, r, entries[..|entries| - 1]);
      if e.ranks.None? then took else AfterRanks(g, r, e.ranks.value, e.children, took)
  }

  ghost predicate EntryOk(g: Graph, pre: map<Vtx, Schedule>, job: Job, r: Rv1, k: nat)
    requires g.root.Some? && k < |r.rlite|
  {
    var e := r.rlite[k];
    e.ranks.Some? && RanksOk(g, pre, job, r, e.ranks.value, e.children, AfterEntries(g, r, r.rlite[..k]), |e.ranks.value|)
  }

  ghost predicate EntriesOk(g: Graph, pre: map<Vtx, Schedule>, job: Job, r: Rv1, n: nat)
    requires g.root.Some? && n <= |r.rlite|
  {
    forall k {:trigger EntryOk(g, pre, job, r, k)} :: 0 <= k < n ==> EntryOk(g, pre, job, r, k)
  }

  /** Everything that R lists exists, is connected, is free and is granted once; every rank has a taken vertex. */
  ghost predicate Applies(g: Graph, pre: map<Vtx, Schedule>, job: Job, r: Rv1) {
    g.root.Some? && EntriesOk(g, pre, job, r, |r.rlite|)
  }

  /** The vertices that one rank of an entry names. */
  ghost function NamedBy(g: Graph, r: Rv1, rank: int, cs: seq<Children>): set<Vtx> {
    match NodeOf(g, r, rank) case None => {} case Some(v) => Under(g, v, rank, cs) + {v}
  }

  /** Nothing was taken since `was` but vertices that the ranks name. */
  ghost predicate WithinRanks(g: Graph, r: Rv1, ranks: seq<nat>, cs: seq<Children>, was: set<Vtx>, took: set<Vtx>) {
    took <= was + NamedByRanks(g, r, ranks, cs)
  }

  ghost function NamedByRanks(g: Graph, r: Rv1, ranks: seq<nat>, cs: seq<Children>): set<Vtx> {
    BelowRanks(g, r, ranks, cs) + Nodes(g, r, ranks)
  }

  ghost predicate WithinEntries(g: Graph, r: Rv1, es: seq<Entry>, took: set<Vtx>) {
    took <= ListedVertices(g, r, es) + ListedNodes(g, r, es)
  }

  // ----- The walk, in place

  class Updater {
    const g: Graph
    var sched: map<Vtx, Schedule>
    /** updated_vertices: the vertices taken so far, by rank. */
    var updated: map<int, seq<Vtx>>
    ghost var took: set<Vtx>

    constructor (g: Graph, sched: map<Vtx, Schedule>)
      requires GoodSchedules(g, sched)
      ensures this.g == g && this.sched == sched && updated == map[] && took == {}
    {
      this.g, this.sched, updated, took := g, sched, map[], {};
    }

    ghost predicate Running(pre: map<Vtx, Schedule>, job: Job)
      reads this
    {
      Ahead(g, pre, sched, took, job) && Recorded(g, updated, took)
    }

    /** Adds the span and the tag, and records the vertex. */
    method TakeVertex(v: Vtx, job: Job, ghost pre: map<Vtx, Schedule>) returns (ok: bool)
      requires Running(pre, job) && v in g.info && g.info[v].size > 0
      modifies this
      ensures Running(pre, job)
      ensures ok <==> v !in old(took) && Free(g, pre, job, v)
      ensures took == old(took) + if ok then {v} else {}
    {
      TakenOrFree(g, pre, sched, took, job, v);
      var s := sched[v];
      if s.plans.None? {
        return false;
      }
      var plan := AddSpan(s.plans.value, job.at, job.duration, g.info[v].size);
      if plan.None? {
        return false;
      }
      TakeKeepsAhead(g, pre, sched, took, job, v);
      PushKeepsRecord(g, updated, took, v);
      var span := plan.value.counter;
      var tags := Tags(s, job.reserved)[job.jobid := span];
      sched := sched[v := WithTags(s.(plans := plan), job.reserved, tags)];
      updated := Push(updated, g.info[v].rank, v);
      took := took + {v};
      ok := true;
    }

    /** update_vertex: the vertex must be free for the whole time; a node is not taken yet. */
    method UpdateVertex(v: Vtx, job: Job, ghost pre: map<Vtx, Schedule>) returns (ok: bool)
      requires Running(pre, job) && v in g.info && g.info[v].size > 0
      modifies this
      ensures Running(pre, job)
      ensures ok <==> v !in old(took) && Free(g, pre, job, v)
      ensures took == old(took) + if ok && g.info[v].rtype != NODE then {v} else {}
    {
      TakenOrFree(g, pre, sched, took, job, v);
      if sched[v].plans.None? {
        return false;
      }
      var avail := AvailDuring(sched[v].plans.value, job.at, job.duration);
      if avail.None? || avail.value < g.info[v].size {
        return false;
      }
      if g.info[v].rtype == NODE {
        return true;
      }
      ok := TakeVertex(v, job, pre);
    }

    /** update_edges: only whether the edge exists. */
    method UpdateEdges(src: Vtx, dst: Vtx) returns (found: bool)
      requires src in g.info
      ensures found <==> dst in g.outEdges[src]
    {
      var out := g.outEdges[src];
      for i := 0 to |out|
        invariant dst !in out[..i]
      {
        if out[i] == dst {
          return true;
        }
      }
      assert out[..|out|] == out;
      found := false;
    }

    /** update_exclusivity */
    method UpdateExclusivity(node: Vtx, job: Job, ghost pre: map<Vtx, Schedule>) returns (ok: bool)
      requires Running(pre, job) && node in g.info && g.info[node].size > 0 && node !in took
      modifies this
      ensures Running(pre, job)
      ensures ok <==> OfRank(g, old(took), g.info[node].rank) != {} &&
                      (Others(g, node) <= old(took) ==> Free(g, pre, job, node))
      ensures took == old(took) + if ok && Others(g, node) <= old(took) then {node} else {}
    {
      assert RankRecord(g, updated, took, g.info[node].rank);
      var rank := g.info[node].rank;
      if rank !in updated || rank !in g.byRank {
        return false;
      }
      CountIsAll(g, updated, took, node);
      assert updated[rank][0] in OfRank(g, took, rank);
      if |updated[rank]| != |g.byRank[rank]| - 1 {
        return true;
      }
      ok := TakeVertex(node, job, pre);
    }

    /** add_or_update in its update half. */
    method AddOrUpdate(parent: Vtx, name: string, rtype: string, id: int, rank: int, job: Job,
                       ghost pre: map<Vtx, Schedule>)
      returns (r: Option<Vtx>)
      requires Running(pre, job) && parent in g.info
      modifies this
      ensures Running(pre, job)
      ensures var v := Lookup(g, parent, name, rtype, id, rank);
              && (r.Some? <==> CanGrant(g, pre, job, old(took), parent, v))
              && (r.Some? ==> r == v && took == old(took) + if rtype == NODE then {} else {v.value})
              && (took == old(took) || (v.Some? && rtype != NODE && took == old(took) + {v.value}))
    {
      r := FindVertex(g, parent, name, rtype, id, rank);
      if r.None? {
        return;
      }
      var ok := UpdateVertex(r.value, job, pre);
      if !ok {
        return None;
      }
      ok := UpdateEdges(parent, r.value);
      if !ok {
        return None;
      }
    }

    /** unpack_child */
    method UnpackChild(node: Vtx, rank: nat, c: Children, job: Job, ghost pre: map<Vtx, Schedule>) returns (ok: bool)
      requires Running(pre, job) && node in g.info
      modifies this
      ensures Running(pre, job)
      ensures ok <==> ChildrenOk(g, pre, job, node, rank, c, old(took))
      ensures ok ==> took == old(took) + ChildSet(g, node, rank, c)
      ensures took <= old(took) + ChildSet(g, node, rank, c)
    {
      if c.ids.None? {
        return false;
      }
      var ids := c.ids.value;
      ghost var was := took;
      for k := 0 to |ids|
        invariant Running(pre, job)
        invariant took == was + Named(g, node, rank, c.rtype, ids[..k])
        invariant IdsOk(g, pre, job, node, rank, c.rtype, ids, was, k)
      {
        var r := AddOrUpdate(node, c.rtype + Decimal(ids[k]), c.rtype, ids[k], rank, job, pre);
        IdsOkNext(g, pre, job, node, rank, c.rtype, ids, was, k);
        NamedGrows(g, node, rank, c.rtype, ids, k);
        if r.None? {
          return false;
        }
      }
      AllOf(ids);
      ok := true;
    }

    /** unpack_children */
    method UnpackChildren(node: Vtx, rank: nat, cs: seq<Children>, job: Job, ghost pre: map<Vtx, Schedule>)
      returns (ok: bool)
      requires Running(pre, job) && node in g.info
      modifies this
      ensures Running(pre, job)
      ensures ok <==> TypesOk(g, pre, job, node, rank, cs, old(took), |cs|)
      ensures ok ==> took == old(took) + Under(g, node, rank, cs)
      ensures took <= old(took) + Under(g, node, rank, cs)
    {
      ghost var was := took;
      for k := 0 to |cs|
        invariant Running(pre, job)
        invariant took == was + Under(g, node, rank, cs[..k])
        invariant TypesOk(g, pre, job, node, rank, cs, was, k)
      {
        ok := UnpackChild(node, rank, cs[k], job, pre);
        TypesOkNext(g, pre, job, node, rank, cs, was, k);
        UnderGrows(g, node, rank, cs, k);
        if !ok {
          return;
        }
      }
      assert cs[..|cs|] == cs;
      ok := true;
    }

    /** unpack_rank */
    method UnpackRank(r: Rv1, rmap: map<nat, nat>, rank: nat, cs: seq<Children>, job: Job, ghost pre: map<Vtx, Schedule>)
      returns (ok: bool)
      requires Running(pre, job) && g.root.Some? && RmapOf(r, rmap)
      modifies this
      ensures Running(pre, job)
      ensures ok <==> RankOk(g, pre, job, r, rank, cs, old(took))
      ensures ok ==> took == AfterRank(g, r, rank, cs, old(took))
      ensures took <= old(took) + NamedBy(g, r, rank, cs)
    {
      if rank !in rmap || rmap[rank] >= |r.nodelist| {
        return false;
      }
      var host := r.nodelist[rmap[rank]];
      if host.suffix.None? {
        return false;
      }
      var v := AddOrUpdate(g.root.value, host.name, NODE, host.suffix.value, rank, job, pre);
      if v.None? {
        return false;
      }
      ok := UnpackChildren(v.value, rank, cs, job, pre);
      if !ok {
        return;
      }
      ok := UpdateExclusivity(v.value, job, pre);
    }

    /** unpack_rlite_entry */
    method UnpackEntry(r: Rv1, rmap: map<nat, nat>, e: Entry, job: Job, ghost pre: map<Vtx, Schedule>)
      returns (ok: bool)
      requires Running(pre, job) && g.root.Some? && RmapOf(r, rmap)
      modifies this
      ensures Running(pre, job)
      ensures ok <==> e.ranks.Some? && RanksOk(g, pre, job, r, e.ranks.value, e.children, old(took), |e.ranks.value|)
      ensures ok ==> took == AfterRanks(g, r, e.ranks.value, e.children, old(took))
      ensures e.ranks.None? ==> took == old(took)
      ensures e.ranks.Some? ==> WithinRanks(g, r, e.ranks.value, e.children, old(took), took)
    {
      if e.ranks.None? {
        return false;
      }
      var ranks := e.ranks.value;
      ghost var was := took;
      for k := 0 to |ranks|
        invariant Running(pre, job)
        invariant took == AfterRanks(g, r, ranks[..k], e.children, was)
        invariant RanksOk(g, pre, job, r, ranks, e.children, was, k)
        invariant WithinRanks(g, r, ranks[..k], e.children, was, took)
      {
        ghost var before := took;
        ok := UnpackRank(r, rmap, ranks[k], e.children, job, pre);
        RanksOkNext(g, pre, job, r, ranks, e.children, was, k);
        WithinNextRank(g, r, ranks, e.children, k, was, before, took);
        if !ok {
          return;
        }
      }
      assert ranks[..|ranks|] == ranks;
      ok := true;
    }

    /** unpack_rlite */
    method UnpackRlite(r: Rv1, rmap: map<nat, nat>, job: Job, ghost pre: map<Vtx, Schedule>) returns (ok: bool)
      requires Running(pre, job) && RmapOf(r, rmap) && took == {}
      modifies this
      ensures Running(pre, job)
      ensures ok <==> Applies(g, pre, job, r)
      ensures ok ==> took == AfterEntries(g, r, r.rlite)
      ensures WithinEntries(g, r, r.rlite, took)
    {
      if g.root.None? {
        return false;
      }
      var es := r.rlite;
      for k := 0 to |es|
        invariant Running(pre, job)
        invariant took == AfterEntries(g, r, es[..k])
        invariant EntriesOk(g, pre, job, r, k)
        invariant WithinEntries(g, r, es[..k], took)
      {
        ghost var before := took;
        ok := UnpackEntry(r, rmap, es[k], job, pre);
        EntriesOkNext(g, pre, job, r, k);
        WithinNextEntry(g, r, es, k, before, took);
        if !ok {
          return;
        }
        assert es[..k + 1][..k] == es[..k];
      }
      assert es[..|es|] == es;
      ok := true;
    }

    /** One turn of the inner loop of undo_vertices: the tag and the span it names go. */
    method UndoVertex(v: Vtx, job: Job, ghost pre: map<Vtx, Schedule>, ghost left: set<Vtx>)
      requires Backing(g, pre, sched, took, left, job) && v in left
      modifies `sched
      ensures Backing(g, pre, sched, took, left - {v}, job)
    {
      assert BackState(g, pre, sched, took, left, job, v);
      UntakeTake(pre[v], job, g.info[v].size);
      ghost var before := sched;
      var s := sched[v];
      var tags := Tags(s, job.reserved);
      var plan := RemSpan(s.plans.value, tags[job.jobid]);
      match plan
      case None => assert false;
      case Some(p) => sched := sched[v := WithTags(s.(plans := Some(p)), job.reserved, tags - {job.jobid})];
      UndoStep(g, pre, before, sched, took, left, job, v);
    }

    /** undo_vertices */
    method UndoVertices(job: Job, ghost pre: map<Vtx, Schedule>)
      requires Running(pre, job)
      modifies `sched
      ensures Backing(g, pre, sched, took, {}, job)
    {
      StartBack(g, pre, sched, took, job);
      var todo: set<int> := updated.Keys;
      ghost var left := took;
      assert forall v :: v in took ==> g.info[v].rank in todo by {
        forall v | v in took
          ensures g.info[v].rank in todo
        {
          assert RankRecord(g, updated, took, g.info[v].rank);
          assert v in OfRank(g, took, g.info[v].rank);
        }
      }
      while todo != {}
        invariant todo <= updated.Keys && Backing(g, pre, sched, took, left, job)
        invariant left == set v | v in took && g.info[v].rank in todo
        decreases |todo|
      {
        var r := AnyOf(todo);
        UndoRank(r, job, pre, left);
        left := left - OfRank(g, took, r);
        todo := todo - {r};
      }
      assert left == {};
    }

    method UndoRank(r: int, job: Job, ghost pre: map<Vtx, Schedule>, ghost left: set<Vtx>)
      requires r in updated && Recorded(g, updated, took) && took <= g.info.Keys
      requires Backing(g, pre, sched, took, left, job) && OfRank(g, took, r) <= left
      modifies `sched
      ensures Backing(g, pre, sched, took, left - OfRank(g, took, r), job)
    {
      var vs := updated[r];
      assert RankRecord(g, updated, took, r);
      assert left - Elements(vs[..0]) == left;
      for i := 0 to |vs|
        invariant Backing(g, pre, sched, took, left - Elements(vs[..i]), job)
      {
        assert vs[i] in OfRank(g, took, r);
        UndoVertex(vs[i], job, pre, left - Elements(vs[..i]));
        assert left - Elements(vs[..i]) - {vs[i]} == left - Elements(vs[..i + 1]);
      }
      assert vs[..|vs|] == vs;
    }

    /** update: all of R, or nothing. */
    method Update(r: Rv1, job: Job) returns (ok: bool)
      requires GoodSchedules(g, sched)
      modifies this
      ensures GoodSchedules(g, sched)
      ensures ok <==> Applies(g, old(sched), job, r)
      // Success: the listed vertices, and each listed node whose rank is listed completely, are taken.
      ensures ok ==> forall v :: v in g.info ==>
        if Wanted(g, ListedVertices(g, r, r.rlite), ListedNodes(g, r, r.rlite), v)
        then Take(old(sched)[v], job, g.info[v].size) == Some(sched[v])
        else sched[v] == old(sched)[v]
      // Failure: what was taken and given back has lost the job's earlier tag, if it had one; all else is untouched.
      ensures !ok ==> WithinEntries(g, r, r.rlite, took)
      ensures !ok ==> forall v :: v in g.info ==>
        if v in took then Books(sched[v]) == Books(Untagged(old(sched)[v], job)) else sched[v] == old(sched)[v]
      // So nothing changed if and only if nothing that was taken had a tag of the job; a fresh job id has none.
      ensures !ok ==> (Restored(g, old(sched), sched) <==> Untouched(g, old(sched), job, took))
      ensures !ok && Fresh(g, old(sched), job) ==> Restored(g, old(sched), sched)
    {
      ghost var pre := sched;
      updated, took := map[], {};
      StartsAhead(g, sched, job);
      var rmap := BuildRmap(r.rlite);
      ok := rmap.Some?;
      if ok {
        ok := UnpackRlite(r, rmap.value, job, pre);
      } else {
        NotDecoded(g, pre, job, r);
      }
      if ok {
        AppliedIsGoal(g, pre, job, r);
        Finished(g, pre, sched, took, job, ListedVertices(g, r, r.rlite), ListedNodes(g, r, r.rlite));
      } else {
        UndoVertices(job, pre);
        RolledBack(g, pre, sched, took, job);
      }
    }
  }

  method AnyOf<T(==)>(s: set<T>) returns (r: T)
    requires s != {}
    ensures r in s
  {
    r :| r in s;
  }

  ghost predicate RmapOf(r: Rv1, rmap: map<nat, nat>) {
    rmap == map q | q in Listed(r.rlite) :: Index(Listed(r.rlite), q)
  }

  /** A vertex can be taken now if and only if it has not been and could before. */
  lemma TakenOrFree(g: Graph, pre: map<Vtx, Schedule>, cur: map<Vtx, Schedule>, took: set<Vtx>, job: Job, v: Vtx)
    requires Ahead(g, pre, cur, took, job) && v in g.info && g.info[v].size > 0
    ensures Take(cur[v], job, g.info[v].size).Some? <==> v !in took && Free(g, pre, job, v)
    ensures cur[v].plans.Some? ==> cur[v].plans.value.total == g.info[v].size
  {
    assert VertexState(g, pre, cur, took, job, v);
    if v in took {
      NotTwice(pre[v], job, g.info[v].size);
      TakeMeans(pre[v], job, g.info[v].size);
    }
  }

  lemma AllOf(ids: seq<nat>)
    ensures ids[..|ids|] == ids
  {}

  lemma IdsOkNext(g: Graph, pre: map<Vtx, Schedule>, job: Job, node: Vtx, rank: int, rtype: string, ids: seq<nat>,
                  took: set<Vtx>, n: nat)
    requires node in g.info && n < |ids| && IdsOk(g, pre, job, node, rank, rtype, ids, took, n)
    ensures IdsOk(g, pre, job, node, rank, rtype, ids, took, n + 1)
            <==> IdOk(g, pre, job, node, rank, rtype, ids, took, n)
    ensures IdsOk(g, pre, job, node, rank, rtype, ids, took, |ids|) ==> IdOk(g, pre, job, node, rank, rtype, ids, took, n)
  {}

  lemma TypesOkNext(g: Graph, pre: map<Vtx, Schedule>, job: Job, node: Vtx, rank: int, cs: seq<Children>,
                    took: set<Vtx>, n: nat)
    requires node in g.info && n < |cs| && TypesOk(g, pre, job, node, rank, cs, took, n)
    ensures TypesOk(g, pre, job, node, rank, cs, took, n + 1) <==> TypeOk(g, pre, job, node, rank, cs, took, n)
    ensures TypesOk(g, pre, job, node, rank, cs, took, |cs|) ==> TypeOk(g, pre, job, node, rank, cs, took, n)
  {}

  lemma RanksOkNext(g: Graph, pre: map<Vtx, Schedule>, job: Job, r: Rv1, ranks: seq<nat>, cs: seq<Children>,
                    took: set<Vtx>, n: nat)
    requires g.root.Some? && n < |ranks| && RanksOk(g, pre, job, r, ranks, cs, took, n)
    ensures RanksOk(g, pre, job, r, ranks, cs, took, n + 1) <==> NthRankOk(g, pre, job, r, ranks, cs, took, n)
    ensures RanksOk(g, pre, job, r, ranks, cs, took, |ranks|) ==> NthRankOk(g, pre, job, r, ranks, cs, took, n)
    ensures AfterRanks(g, r, ranks[..n + 1], cs, took) ==
              AfterRank(g, r, ranks[n], cs, AfterRanks(g, r, ranks[..n], cs, took))
  {
    assert ranks[..n + 1][..n] == ranks[..n];
  }

  lemma EntriesOkNext(g: Graph, pre: map<Vtx, Schedule>, job: Job, r: Rv1, n: nat)
    requires g.root.Some? && n < |r.rlite| && EntriesOk(g, pre, job, r, n)
    ensures EntriesOk(g, pre, job, r, n + 1) <==> EntryOk(g, pre, job, r, n)
    ensures EntriesOk(g, pre, job, r, |r.rlite|) ==> EntryOk(g, pre, job, r, n)
  {}

  lemma NamedGrows(g: Graph, node: Vtx, rank: int, rtype: string, ids: seq<nat>, k: nat)
    requires node in g.paths && k < |ids|
    ensures var v := Child(g, node, rank, rtype, ids[k]);
            Named(g, node, rank, rtype, ids[..k + 1]) ==
              Named(g, node, rank, rtype, ids[..k]) + if rtype == NODE || v.None? then {} else {v.value}
    ensures Named(g, node, rank, rtype, ids[..k + 1]) <= Named(g, node, rank, rtype, ids)
  {
    assert ids[..k + 1][..k] == ids[..k];
    NamedPrefix(g, node, rank, rtype, ids, k + 1);
  }

  lemma {:induction false} NamedPrefix(g: Graph, node: Vtx, rank: int, rtype: string, ids: seq<nat>, n: nat)
    requires node in g.paths && n <= |ids|
    ensures Named(g, node, rank, rtype, ids[..n]) <= Named(g, node, rank, rtype, ids)
  {
    var l := |ids| - 1;
    if n == |ids| {
      assert ids[..n] == ids;
    } else {
      NamedPrefix(g, node, rank, rtype, ids[..l], n);
      assert ids[..l][..n] == ids[..n];
    }
  }

  lemma UnderGrows(g: Graph, node: Vtx, rank: int, cs: seq<Children>, k: nat)
    requires node in g.paths && k < |cs|
    ensures Under(g, node, rank, cs[..k + 1]) == Under(g, node, rank, cs[..k]) + ChildSet(g, node, rank, cs[k])
    ensures Under(g, node, rank, cs[..k + 1]) <= Under(g, node, rank, cs)
  {
    assert cs[..k + 1][..k] == cs[..k];
    UnderPrefix(g, node, rank, cs, k + 1);
  }

  lemma {:induction false} UnderPrefix(g: Graph, node: Vtx, rank: int, cs: seq<Children>, n: nat)
    requires node in g.paths && n <= |cs|
    ensures Under(g, node, rank, cs[..n]) <= Under(g, node, rank, cs)
  {
    var l := |cs| - 1;
    if n == |cs| {
      assert cs[..n] == cs;
    } else {
      UnderPrefix(g, node, rank, cs[..l], n);
      assert cs[..l][..n] == cs[..n];
    }
  }

  lemma RanksGrow(g: Graph, r: Rv1, ranks: seq<nat>, cs: seq<Children>, k: nat)
    requires k < |ranks|
    ensures BelowRanks(g, r, ranks[..k], cs) + Nodes(g, r, ranks[..k]) + NamedBy(g, r, ranks[k], cs)
            == BelowRanks(g, r, ranks[..k + 1], cs) + Nodes(g, r, ranks[..k + 1])
    ensures BelowRanks(g, r, ranks[..k + 1], cs) <= BelowRanks(g, r, ranks, cs)
    ensures Nodes(g, r, ranks[..k + 1]) <= Nodes(g, r, ranks)
  {
    assert ranks[..k + 1][..k] == ranks[..k];
    RanksPrefix(g, r, ranks, cs, k + 1);
  }

  lemma {:induction false} RanksPrefix(g: Graph, r: Rv1, ranks: seq<nat>, cs: seq<Children>, n: nat)
    requires n <= |ranks|
    ensures BelowRanks(g, r, ranks[..n], cs) <= BelowRanks(g, r, ranks, cs)
    ensures Nodes(g, r, ranks[..n]) <= Nodes(g, r, ranks)
  {
    var l := |ranks| - 1;
    if n == |ranks| {
      assert ranks[..n] == ranks;
    } else {
      RanksPrefix(g, r, ranks[..l], cs, n);
      assert ranks[..l][..n] == ranks[..n];
    }
  }

  lemma WithinNextRank(g: Graph, r: Rv1, ranks: seq<nat>, cs: seq<Children>, k: nat, was: set<Vtx>, before: set<Vtx>,
                       took: set<Vtx>)
    requires k < |ranks| && WithinRanks(g, r, ranks[..k], cs, was, before)
    requires took <= before + NamedBy(g, r, ranks[k], cs)
    ensures WithinRanks(g, r, ranks[..k + 1], cs, was, took) && WithinRanks(g, r, ranks, cs, was, took)
  {
    NamedGrow(g, r, ranks, cs, k);
  }

  lemma NamedGrow(g: Graph, r: Rv1, ranks: seq<nat>, cs: seq<Children>, k: nat)
    requires k < |ranks|
    ensures NamedByRanks(g, r, ranks[..k + 1], cs) == NamedByRanks(g, r, ranks[..k], cs) + NamedBy(g, r, ranks[k], cs)
    ensures NamedByRanks(g, r, ranks[..k + 1], cs) <= NamedByRanks(g, r, ranks, cs)
  {
    RanksGrow(g, r, ranks, cs, k);
  }

  lemma WithinNextEntry(g: Graph, r: Rv1, es: seq<Entry>, k: nat, before: set<Vtx>, took: set<Vtx>)
    requires k < |es| && WithinEntries(g, r, es[..k], before)
    requires if es[k].ranks.None? then took == before
             else WithinRanks(g, r, es[k].ranks.value, es[k].children, before, took)
    ensures WithinEntries(g, r, es[..k + 1], took) && WithinEntries(g, r, es, took)
  {
    EntriesGrow(g, r, es, k);
  }

  lemma EntriesGrow(g: Graph, r: Rv1, es: seq<Entry>, k: nat)
    requires k < |es|
    ensures var ranks := es[k].ranks;
            && ListedVertices(g, r, es[..k + 1]) ==
                 ListedVertices(g, r, es[..k]) + (if ranks.None? then {} else BelowRanks(g, r, ranks.value, es[k].children))
            && ListedNodes(g, r, es[..k + 1]) ==
                 ListedNodes(g, r, es[..k]) + if ranks.None? then {} else Nodes(g, r, ranks.value)
    ensures ListedVertices(g, r, es[..k + 1]) <= ListedVertices(g, r, es)
    ensures ListedNodes(g, r, es[..k + 1]) <= ListedNodes(g, r, es)
  {
    assert es[..k + 1][..k] == es[..k];
    EntriesPrefix(g, r, es, k + 1);
  }

  lemma {:induction false} EntriesPrefix(g: Graph, r: Rv1, es: seq<Entry>, n: nat)
    requires n <= |es|
    ensures ListedVertices(g, r, es[..n]) <= ListedVertices(g, r, es)
    ensures ListedNodes(g, r, es[..n]) <= ListedNodes(g, r, es)
  {
    var l := |es| - 1;
    if n == |es| {
      assert es[..n] == es;
    } else {
      EntriesPrefix(g, r, es[..l], n);
      assert es[..l][..n] == es[..n];
    }
  }

  lemma NotDecoded(g: Graph, pre: map<Vtx, Schedule>, job: Job, r: Rv1)
    requires exists i :: 0 <= i < |r.rlite| && r.rlite[i].ranks.None?
    ensures !Applies(g, pre, job, r)
  {
    var i :| 0 <= i < |r.rlite| && r.rlite[i].ranks.None?;
    if g.root.Some? {
      assert !EntryOk(g, pre, job, r, i);
    }
  }

  // ----- What an applied R has taken, and that it ignored nothing

  lemma AppliedIsGoal(g: Graph, pre: map<Vtx, Schedule>, job: Job, r: Rv1)
    requires Applies(g, pre, job, r)
    ensures Goal(g, ListedVertices(g, r, r.rlite), ListedNodes(g, r, r.rlite), AfterEntries(g, r, r.rlite))
  {
    EntriesReach(g, pre, job, r, |r.rlite|);
    assert r.rlite[..|r.rlite|] == r.rlite;
  }

  lemma {:induction false} EntriesReach(g: Graph, pre: map<Vtx, Schedule>, job: Job, r: Rv1, n: nat)
    requires g.root.Some? && n <= |r.rlite| && EntriesOk(g, pre, job, r, n)
    ensures var es := r.rlite[..n];
            Goal(g, ListedVertices(g, r, es), ListedNodes(g, r, es), AfterEntries(g, r, es)) &&
            AreNodes(g, r, ListedNodes(g, r, es))
  {
    if n > 0 {
      var k := n - 1;
      EntriesReach(g, pre, job, r, k);
      assert EntryOk(g, pre, job, r, k);
      EntryReach(g, pre, job, r, k);
    }
  }

  lemma EntryReach(g: Graph, pre: map<Vtx, Schedule>, job: Job, r: Rv1, k: nat)
    requires g.root.Some? && k < |r.rlite| && EntryOk(g, pre, job, r, k)
    requires var es := r.rlite[..k];
             Goal(g, ListedVertices(g, r, es), ListedNodes(g, r, es), AfterEntries(g, r, es)) &&
             AreNodes(g, r, ListedNodes(g, r, es))
    ensures var es := r.rlite[..k + 1];
            Goal(g, ListedVertices(g, r, es), ListedNodes(g, r, es), AfterEntries(g, r, es)) &&
            AreNodes(g, r, ListedNodes(g, r, es))
  {
    var e, es, more := r.rlite[k], r.rlite[..k], r.rlite[..k + 1];
    EntrySets(g, r, k);
    RanksReachAll(g, pre, job, r, e.ranks.value, e.children, ListedVertices(g, r, es), ListedNodes(g, r, es),
                  AfterEntries(g, r, es), ListedVertices(g, r, more), ListedNodes(g, r, more), AfterEntries(g, r, more));
  }

  lemma EntrySets(g: Graph, r: Rv1, k: nat)
    requires k < |r.rlite| && r.rlite[k].ranks.Some?
    ensures var e, es, more := r.rlite[k], r.rlite[..k], r.rlite[..k + 1];
            && ListedVertices(g, r, more) == ListedVertices(g, r, es) + BelowRanks(g, r, e.ranks.value, e.children)
            && ListedNodes(g, r, more) == ListedNodes(g, r, es) + Nodes(g, r, e.ranks.value)
            && AfterEntries(g, r, more) == AfterRanks(g, r, e.ranks.value, e.children, AfterEntries(g, r, es))
  {
    EntriesGrow(g, r, r.rlite, k);
    assert r.rlite[..k + 1][..k] == r.rlite[..k] && r.rlite[k] == r.rlite[..k + 1][k];
  }

  lemma RanksReachAll(g: Graph, pre: map<Vtx, Schedule>, job: Job, r: Rv1, ranks: seq<nat>, cs: seq<Children>,
                      listed: set<Vtx>, nodes: set<Vtx>, took: set<Vtx>,
                      listed': set<Vtx>, nodes': set<Vtx>, took': set<Vtx>)
    requires g.root.Some? && RanksOk(g, pre, job, r, ranks, cs, took, |ranks|)
    requires Goal(g, listed, nodes, took) && AreNodes(g, r, nodes)
    requires listed' == listed + BelowRanks(g, r, ranks, cs) && nodes' == nodes + Nodes(g, r, ranks)
    requires took' == AfterRanks(g, r, ranks, cs, took)
    ensures Goal(g, listed', nodes', took') && AreNodes(g, r, nodes')
  {
    RanksReach(g, pre, job, r, ranks, cs, listed, nodes, took, |ranks|);
    AllOf(ranks);
  }

  lemma {:induction false} RanksReach(g: Graph, pre: map<Vtx, Schedule>, job: Job, r: Rv1, ranks: seq<nat>,
                                      cs: seq<Children>, listed: set<Vtx>, nodes: set<Vtx>, took: set<Vtx>, n: nat)
    requires g.root.Some? && n <= |ranks| && RanksOk(g, pre, job, r, ranks, cs, took, n)
    requires Goal(g, listed, nodes, took) && AreNodes(g, r, nodes)
    ensures Goal(g, listed + BelowRanks(g, r, ranks[..n], cs), nodes + Nodes(g, r, ranks[..n]),
                 AfterRanks(g, r, ranks[..n], cs, took))
    ensures AreNodes(g, r, nodes + Nodes(g, r, ranks[..n]))
    decreases n
  {
    if n == 0 {
      assert listed + BelowRanks(g, r, ranks[..0], cs) == listed;
      assert nodes + Nodes(g, r, ranks[..0]) == nodes;
    } else {
      var k := n - 1;
      RanksReach(g, pre, job, r, ranks, cs, listed, nodes, took, k);
      assert NthRankOk(g, pre, job, r, ranks, cs, took, k);
      assert ranks[..n][..k] == ranks[..k];
      EntryStep(g, r, ranks, k, cs, listed, nodes, AfterRanks(g, r, ranks[..k], cs, took),
                AfterRanks(g, r, ranks[..n], cs, took));
    }
  }

  /** Every name that an applied R lists was found: the node of each rank, and each child. */
  lemma NothingIgnored(g: Graph, pre: map<Vtx, Schedule>, job: Job, r: Rv1, i: nat, j: nat, k: nat, l: nat)
    requires Applies(g, pre, job, r) && i < |r.rlite|
    ensures r.rlite[i].ranks.Some?
    ensures j < |r.rlite[i].ranks.value| ==>
              var e := r.rlite[i];
              var rank := e.ranks.value[j];
              var node := NodeOf(g, r, rank);
              && node.Some? && node.value in ListedNodes(g, r, r.rlite)
              && (k < |e.children| ==>
                    var c := e.children[k];
                    && c.ids.Some?
                    && (l < |c.ids.value| ==>
                          var v := Child(g, node.value, rank, c.rtype, c.ids.value[l]);
                          v.Some? && (c.rtype != NODE ==> v.value in ListedVertices(g, r, r.rlite))))
  {
    var e := r.rlite[i];
    assert EntryOk(g, pre, job, r, i);
    EntriesGrow(g, r, r.rlite, i);
    if j < |e.ranks.value| {
      RankNotIgnored(g, pre, job, r, e, j, AfterEntries(g, r, r.rlite[..i]), k, l);
    }
  }

  lemma RankNotIgnored(g: Graph, pre: map<Vtx, Schedule>, job: Job, r: Rv1, e: Entry, j: nat, took: set<Vtx>,
                       k: nat, l: nat)
    requires g.root.Some? && e.ranks.Some? && j < |e.ranks.value|
    requires RanksOk(g, pre, job, r, e.ranks.value, e.children, took, |e.ranks.value|)
    ensures var rank := e.ranks.value[j];
            var node := NodeOf(g, r, rank);
            && node.Some? && node.value in Nodes(g, r, e.ranks.value)
            && (k < |e.children| ==>
                  var c := e.children[k];
                  && c.ids.Some?
                  && (l < |c.ids.value| ==>
                        var v := Child(g, node.value, rank, c.rtype, c.ids.value[l]);
                        v.Some? && (c.rtype != NODE ==> v.value in BelowRanks(g, r, e.ranks.value, e.children))))
  {
    var ranks, cs := e.ranks.value, e.children;
    var rank, before := ranks[j], AfterRanks(g, r, ranks[..j], cs, took);
    assert NthRankOk(g, pre, job, r, ranks, cs, took, j);
    RanksGrow(g, r, ranks, cs, j);
    var node := NodeOf(g, r, rank).value;
    PrefixGrows(g, r, ranks, j, cs);
    if k < |cs| {
      assert TypeOk(g, pre, job, node, rank, cs, before, k);
      UnderGrows(g, node, rank, cs, k);
      var ids := cs[k].ids.value;
      if l < |ids| {
        assert IdOk(g, pre, job, node, rank, cs[k].rtype, ids, before + Under(g, node, rank, cs[..k]), l);
        NamedGrows(g, node, rank, cs[k].rtype, ids, l);
      }
    }
  }

  lemma EntryStep(g: Graph, r: Rv1, ranks: seq<nat>, k: nat, cs: seq<Children>, listed: set<Vtx>, nodes: set<Vtx>,
                  took: set<Vtx>, after: set<Vtx>)
    requires k < |ranks|
    requires Goal(g, listed + BelowRanks(g, r, ranks[..k], cs), nodes + Nodes(g, r, ranks[..k]), took)
    requires AreNodes(g, r, nodes + Nodes(g, r, ranks[..k]))
    requires NodeOf(g, r, ranks[k]).Some? && NodeOf(g, r, ranks[k]).value !in took
    requires after == AfterRank(g, r, ranks[k], cs, took)
    ensures Goal(g, listed + BelowRanks(g, r, ranks[..k + 1], cs), nodes + Nodes(g, r, ranks[..k + 1]), after)
    ensures AreNodes(g, r, nodes + Nodes(g, r, ranks[..k + 1]))
  {
    var node := NodeOf(g, r, ranks[k]).value;
    var below := Under(g, node, ranks[k], cs);
    VisitStep(g, r, listed + BelowRanks(g, r, ranks[..k], cs), nodes + Nodes(g, r, ranks[..k]), took, node, below, after);
    PrefixGrows(g, r, ranks, k, cs);
    Regroup(listed, BelowRanks(g, r, ranks[..k], cs), below);
    Regroup(nodes, Nodes(g, r, ranks[..k]), {node});
  }

  lemma PrefixGrows(g: Graph, r: Rv1, ranks: seq<nat>, k: nat, cs: seq<Children>)
    requires k < |ranks| && NodeOf(g, r, ranks[k]).Some?
    ensures var node := NodeOf(g, r, ranks[k]).value;
            && BelowRanks(g, r, ranks[..k + 1], cs) == BelowRanks(g, r, ranks[..k], cs) + Under(g, node, ranks[k], cs)
            && Nodes(g, r, ranks[..k + 1]) == Nodes(g, r, ranks[..k]) + {node}
  {
    assert ranks[..k + 1][..k] == ranks[..k];
  }

  lemma Regroup(a: set<Vtx>, b: set<Vtx>, c: set<Vtx>)
    ensures a + b + c == a + (b + c)
  {}

  // ----- Rolling back

  function Untagged(s: Schedule, job: Job): Schedule {
    WithTags(s, job.reserved, Tags(s, job.reserved) - {job.jobid})
  }

  /** No vertex knows the job yet. */
  ghost predicate Fresh(g: Graph, s: map<Vtx, Schedule>, job: Job)
    requires s.Keys == g.info.Keys
  {
    forall v :: v in g.info ==> job.jobid !in Tags(s[v], job.reserved)
  }

  /** None of the vertices of `vs` knows the job yet. */
  ghost predicate Untouched(g: Graph, s: map<Vtx, Schedule>, job: Job, vs: set<Vtx>)
    requires s.Keys == g.info.Keys
  {
    forall v :: v in g.info && v in vs ==> job.jobid !in Tags(s[v], job.reserved)
  }

  /** The spans and tables of every vertex are as before. */
  ghost predicate Restored(g: Graph, pre: map<Vtx, Schedule>, cur: map<Vtx, Schedule>)
    requires pre.Keys == cur.Keys == g.info.Keys
  {
    forall v :: v in g.info ==> Books(cur[v]) == Books(pre[v])
  }

  /** While undoing: the vertices of `left` are still taken, the other taken ones are given back. */
  ghost predicate BackState(g: Graph, pre: map<Vtx, Schedule>, cur: map<Vtx, Schedule>, took: set<Vtx>,
                            left: set<Vtx>, job: Job, v: Vtx)
    requires v in g.info
  {
    && v in pre && v in cur && Good(pre[v], g.info[v].size)
    && if v in left then Take(pre[v], job, g.info[v].size) == Some(cur[v])
       else if v in took then Good(cur[v], g.info[v].size) && Books(cur[v]) == Books(Untagged(pre[v], job))
       else cur[v] == pre[v]
  }

  ghost predicate Backing(g: Graph, pre: map<Vtx, Schedule>, cur: map<Vtx, Schedule>, took: set<Vtx>,
                          left: set<Vtx>, job: Job) {
    && cur.Keys == pre.Keys == g.info.Keys && left <= took <= g.info.Keys
    && forall v {:trigger BackState(g, pre, cur, took, left, job, v)} :: v in g.info ==> BackState(g, pre, cur, took, left, job, v)
  }

  lemma StartBack(g: Graph, pre: map<Vtx, Schedule>, cur: map<Vtx, Schedule>, took: set<Vtx>, job: Job)
    requires Ahead(g, pre, cur, took, job)
    ensures Backing(g, pre, cur, took, took, job)
  {
    forall v | v in g.info
      ensures BackState(g, pre, cur, took, took, job, v)
    {
      assert VertexState(g, pre, cur, took, job, v);
    }
  }

  lemma UndoStep(g: Graph, pre: map<Vtx, Schedule>, cur: map<Vtx, Schedule>, next: map<Vtx, Schedule>, took: set<Vtx>,
                 left: set<Vtx>, job: Job, v: Vtx)
    requires Backing(g, pre, cur, took, left, job) && v in left
    requires Untake(cur[v], job).Some? && next == cur[v := Untake(cur[v], job).value]
    ensures Backing(g, pre, next, took, left - {v}, job)
  {
    assert BackState(g, pre, cur, took, left, job, v);
    UntakeTake(pre[v], job, g.info[v].size);
    forall u | u in g.info
      ensures BackState(g, pre, next, took, left - {v}, job, u)
    {
      assert BackState(g, pre, cur, took, left, job, u);
    }
  }

  lemma StartsAhead(g: Graph, s: map<Vtx, Schedule>, job: Job)
    requires GoodSchedules(g, s)
    ensures Ahead(g, s, s, {}, job) && Recorded(g, map[], {})
  {}

  lemma Finished(g: Graph, pre: map<Vtx, Schedule>, cur: map<Vtx, Schedule>, took: set<Vtx>, job: Job,
                 listed: set<Vtx>, nodes: set<Vtx>)
    requires Ahead(g, pre, cur, took, job) && Goal(g, listed, nodes, took)
    ensures GoodSchedules(g, cur)
    ensures forall v :: v in g.info ==>
      if Wanted(g, listed, nodes, v) then Take(pre[v], job, g.info[v].size) == Some(cur[v]) else cur[v] == pre[v]
  {
    forall v | v in g.info
      ensures Good(cur[v], g.info[v].size)
      ensures if Wanted(g, listed, nodes, v) then Take(pre[v], job, g.info[v].size) == Some(cur[v]) else cur[v] == pre[v]
    {
      assert VertexState(g, pre, cur, took, job, v);
      assert v in took <==> Wanted(g, listed, nodes, v);
      if v in took {
        TakeMeans(pre[v], job, g.info[v].size);
      }
    }
  }

  lemma RolledBack(g: Graph, pre: map<Vtx, Schedule>, cur: map<Vtx, Schedule>, took: set<Vtx>, job: Job)
    requires Backing(g, pre, cur, took, {}, job)
    ensures GoodSchedules(g, cur)
    ensures forall v :: v in g.info ==>
      if v in took then Books(cur[v]) == Books(Untagged(pre[v], job)) else cur[v] == pre[v]
    ensures Restored(g, pre, cur) <==> Untouched(g, pre, job, took)
    ensures Fresh(g, pre, job) ==> Restored(g, pre, cur)
  {
    forall v | v in g.info
      ensures Good(cur[v], g.info[v].size)
      ensures if v in took then Books(cur[v]) == Books(Untagged(pre[v], job)) else cur[v] == pre[v]
      ensures Books(cur[v]) == Books(pre[v]) <==> v !in took || job.jobid !in Tags(pre[v], job.reserved)
    {
      assert BackState(g, pre, cur, took, {}, job, v);
      UntaggedBooks(pre[v], job);
    }
  }

  lemma UntaggedBooks(s: Schedule, job: Job)
    ensures Books(Untagged(s, job)) == Books(s) <==> job.jobid !in Tags(s, job.reserved)
  {
    var tags := Tags(s, job.reserved);
    assert job.jobid !in tags ==> tags - {job.jobid} == tags;
    assert Tags(Untagged(s, job), job.reserved) == tags - {job.jobid};
  }
}
