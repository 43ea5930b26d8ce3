/**
 * The single-resource planner of resource/planner/c: a set of spans over time,
 * each holding part of a total.  The scheduled-point trees of the source are an
 * index of the same information and are not modelled.
 */
module Planning {
  import opened Common

  datatype Span = Span(id: int, start: int, last: int, planned: nat)

  /** `spans` is span_lookup in key order; `counter` is the last id given out. */
  datatype Planner = Planner(planStart: int, planEnd: int, total: int, spans: seq<Span>, counter: int)

  /** What the spans hold at time `t`. */
  function Used(spans: seq<Span>, t: int): (n: nat)
    decreases |spans|
  {
    if spans == [] then 0
    else
      var s := spans[|spans| - 1];
      Used(spans[..|spans| - 1], t) + if s.start <= t < s.last then s.planned else 0
  }

  function Remaining(p: Planner, t: int): int {
    p.total - Used(p.spans, t)
  }

  /** Ids are handed out by the counter, and no moment is oversubscribed. */
  ghost predicate PlannerOk(p: Planner) {
    && (forall i :: 0 <= i < |p.spans| ==> p.spans[i].id <= p.counter)
    && (forall t: int :: 0 <= Remaining(p, t))
  }

  /** The window planner_add_span and planner_avail_resources_during accept. */
  predicate InPlan(p: Planner, at: int, duration: int) {
    p.planStart <= at && 1 <= duration && at + duration <= p.planEnd
  }

  /** planner_avail_resources_during: the least amount free in the window; None is -1. */
  method AvailDuring(p: Planner, at: int, duration: nat) returns (r: Option<int>)
    ensures r.Some? <==> InPlan(p, at, duration)
    ensures r.Some? ==> forall t :: at <= t < at + duration ==> r.value <= Remaining(p, t)
    ensures r.Some? ==> exists t :: at <= t < at + duration && r.value == Remaining(p, t)
  {
    if !InPlan(p, at, duration) {
      return None;
    }
    var min, t := Remaining(p, at), at + 1;
    while t < at + duration
      invariant at < t <= at + duration
      invariant forall u :: at <= u < t ==> min <= Remaining(p, u)
      invariant exists u :: at <= u < t && min == Remaining(p, u)
    {
      if Remaining(p, t) < min {
        min := Remaining(p, t);
      }
      t := t + 1;
    }
    r := Some(min);
  }

  /** planner_add_span: None is -1.  The new span has the new counter as its id. */
  function AddSpan(p: Planner, at: int, duration: int, request: nat): (r: Option<Planner>) {
    if InPlan(p, at, duration) && request <= p.total
       && forall t :: at <= t < at + duration ==> request <= Remaining(p, t)
    then
      Some(p.(spans := p.spans + [Span(p.counter + 1, at, at + duration, request)], counter := p.counter + 1))
    else None
  }

  /** planner_rem_span: None is -1. */
  function RemSpan(p: Planner, id: int): (r: Option<Planner>) {
    if exists i :: 0 <= i < |p.spans| && p.spans[i].id == id
    then Some(p.(spans := Without(p.spans, id)))
    else None
  }

  function Without(spans: seq<Span>, id: int): seq<Span> {
    if spans == [] then []
    else
      var s := spans[|spans| - 1];
      Without(spans[..|spans| - 1], id) + if s.id == id then [] else [s]
  }

  lemma {:induction false} WithoutAbsent(spans: seq<Span>, id: int)
    requires forall i :: 0 <= i < |spans| ==> spans[i].id != id
    ensures Without(spans, id) == spans
  {
    if spans != [] {
      WithoutAbsent(spans[..|spans| - 1], id);
    }
  }

  /** An added span holds its request exactly during its window, and nothing is oversubscribed. */
  lemma AddSpanHolds(p: Planner, at: int, duration: int, request: nat)
    requires PlannerOk(p) && AddSpan(p, at, duration, request).Some?
    ensures var q := AddSpan(p, at, duration, request).value;
            && PlannerOk(q)
            && forall t :: Remaining(q, t) == Remaining(p, t) - if at <= t < at + duration then request else 0
  {
    var q := AddSpan(p, at, duration, request).value;
    assert q.spans[..|q.spans| - 1] == p.spans;
    forall t: int
      ensures Remaining(q, t) == Remaining(p, t) - (if at <= t < at + duration then request else 0) && 0 <= Remaining(q, t)
    {
      assert 0 <= Remaining(p, t);
    }
  }

  /** Removing the span that was just added gives the spans back. */
  lemma RemUndoesAdd(p: Planner, at: int, duration: int, request: nat)
    requires PlannerOk(p) && AddSpan(p, at, duration, request).Some?
    ensures var q := AddSpan(p, at, duration, request).value;
            RemSpan(q, q.counter) == Some(p.(counter := p.counter + 1))
  {
    var q := AddSpan(p, at, duration, request).value;
    assert q.spans[|q.spans| - 1].id == q.counter;
    assert q.spans[..|q.spans| - 1] == p.spans;
    WithoutAbsent(p.spans, q.counter);
    assert p.spans + [] == p.spans;
  }

  /** A planner that gave all it has during a window gives nothing more there. */
  lemma FullRefuses(p: Planner, at: int, duration: int, size: nat)
    requires PlannerOk(p) && p.total == size && size > 0 && AddSpan(p, at, duration, size).Some?
    ensures AddSpan(AddSpan(p, at, duration, size).value, at, duration, size) == None
  {
    var q := AddSpan(p, at, duration, size).value;
    AddSpanHolds(p, at, duration, size);
    assert Remaining(q, at) < size;
  }
}
