/**
 * First come, first served: qmanager/policies/queue_policy_fcfs_impl.hpp
 * together with the service that answers its one streaming match request per
 * pass, match_multi_request_cb of resource/modules/resource.cpp.
 */
module Fcfs {
  import opened Common
  import opened PendingQueue

  datatype Error = NoData | Busy | NoDev | Other

  /** A start time comes with every match. */
  datatype Response = Ok(jobid: Id, at: int) | Err(error: Error)

  /** What matching one job gives: a resource set or an error. */
  datatype Result = Matched(at: int) | Failed(error: Error)

  /** `iter` is m_iter as an index into the pending queue, `limited` is m_queue_depth_limit. */
  datatype Policy = Policy(jobs: map<Id, Job>, queues: Queues, iter: nat, active: bool, limited: bool,
                           schedulable: bool, scheduled: bool, pqCnt: nat)

  // ----- The responder

  /** The stream of answers: one for each matched job, and an error that ends it. */
  function Responses(jobs: seq<Id>, results: seq<Result>): seq<Response>
    requires |jobs| <= |results|
  {
    if jobs == [] then [Err(NoData)]
    else
      match results[0]
      case Matched(at) => [Ok(jobs[0], at)] + Responses(jobs[1..], results[1..])
      case Failed(error) => [Err(error)]
  }

  method MatchMultiRequest(jobs: seq<Id>, results: seq<Result>) returns (out: seq<Response>)
    requires |jobs| <= |results|
    ensures out == Responses(jobs, results)
  {
    out := [];
    for index := 0 to |jobs|
      invariant Responses(jobs, results) == out + Responses(jobs[index..], results[index..])
    {
      assert jobs[index..][1..] == jobs[index + 1..] && results[index..][1..] == results[index + 1..];
      match results[index]
      case Failed(error) =>
        out := out + [Err(error)];
        return;
      case Matched(at) =>
        out := out + [Ok(jobs[index], at)];
    }
    out := out + [Err(NoData)];
  }

  /** The answers that started a job. */
  function Started(rs: seq<Response>): seq<Id> {
    if rs == [] || rs[0].Err? then [] else [rs[0].jobid] + Started(rs[1..])
  }

  predicate Rejecting(e: Error) {
    e != Busy && e != NoData
  }

  // ----- The policy

  /** pack_jobs: the front of the queue, up to the queue depth. */
  function Packed(pending: seq<Id>, depth: nat): seq<Id> {
    if depth <= |pending| then pending[..depth] else pending
  }

  function BeginPass(s: Policy, depth: nat): Policy {
    var pending := Merge(s.jobs, s.queues.pending, s.queues.provisional);
    s.(queues := s.queues.(pending := pending, provisional := []), iter := 0, schedulable := false,
       active := pending != [], limited := s.limited || (pending != [] && depth < |pending|))
  }

  function OnSuccess(s: Policy, jobid: Id, at: int): Policy {
    if !s.active then s
    else if s.iter < |s.queues.pending| && s.queues.pending[s.iter] == jobid && jobid in s.jobs then
      s.(jobs := s.jobs[jobid := s.jobs[jobid].(reserved := false, at := at, selection := Immediate)],
         queues := s.queues.(pending := Drop(s.queues.pending, s.iter), running := s.queues.running + [jobid]),
         scheduled := true)
    else s.(active := false)
  }

  function OnFailure(s: Policy, e: Error): Policy {
    if !s.active then s
    else
      var t :=
        if Rejecting(e) && s.iter < |s.queues.pending| && s.queues.pending[s.iter] in s.jobs then
          var id := s.queues.pending[s.iter];
          s.(jobs := s.jobs[id := s.jobs[id].(note := if e == NoDev then "unsatisfiable" else "match error")],
             queues := s.queues.(pending := Drop(s.queues.pending, s.iter), rejected := s.queues.rejected + [id]))
        else s;
      t.(schedulable := s.schedulable || e == NoDev || (e == NoData && s.limited),
         limited := s.limited && e != NoData, active := false, scheduled := true)
  }

  function OnResponse(s: Policy, r: Response): Policy {
    match r
    case Ok(jobid, at) => OnSuccess(s, jobid, at)
    case Err(e) => OnFailure(s, e)
  }

  function InsertJob(s: Policy, id: Id, priority: nat, submit: real): Policy {
    if id in s.jobs then s
    else
      var jobs := s.jobs[id := Job(Key(priority, submit, s.pqCnt), 0, 0, false, false, Unknown, "")];
      s.(jobs := jobs, queues := s.queues.(provisional := Place(jobs, s.queues.provisional, id)),
         schedulable := true, pqCnt := s.pqCnt + 1)
  }

  // ----- The policy and the stream of answers that is still to come

  datatype System = System(policy: Policy, stream: seq<Response>)

  datatype Event = Insert(id: Id, priority: nat, submit: real) | Pass(results: seq<Result>) | Deliver

  function Step(y: System, depth: nat, e: Event): System {
    match e
    case Insert(id, priority, submit) => y.(policy := InsertJob(y.policy, id, priority, submit))
    case Pass(results) =>
      if y.policy.active then y
      else
        var s := BeginPass(y.policy, depth);
        var jobs := Packed(s.queues.pending, depth);
        System(s, if s.active && |jobs| <= |results| then Responses(jobs, results) else [])
    case Deliver =>
      if y.stream == [] then y else System(OnResponse(y.policy, y.stream[0]), y.stream[1..])
  }

  function Run(y: System, depth: nat, es: seq<Event>): System
    decreases |es|
  {
    if es == [] then y else Run(Step(y, depth, es[0]), depth, es[1..])
  }

  /** Every coming answer is about the job that is then at the front, and only the last is an error. */
  ghost predicate InStep(stream: seq<Response>, pending: seq<Id>) {
    && stream != []
    && match stream[0]
       case Ok(jobid, _) => pending != [] && pending[0] == jobid && InStep(stream[1..], pending[1..])
       case Err(e) => |stream| == 1 && (Rejecting(e) ==> pending != [])
  }

  ghost predicate Known(s: Policy) {
    Partition(s.jobs, s.queues)
  }

  /** The lockstep of policy and responder. */
  ghost predicate Lockstep(y: System) {
    && Known(y.policy)
    && (y.policy.active <==> y.stream != [])
    && (y.policy.active ==> y.policy.iter == 0 && InStep(y.stream, y.policy.queues.pending))
  }

  lemma {:induction false} ResponsesInStep(jobs: seq<Id>, results: seq<Result>, pending: seq<Id>)
    requires |jobs| <= |results| && jobs <= pending
    ensures InStep(Responses(jobs, results), pending)
  {
    if jobs != [] && results[0].Matched? {
      ResponsesInStep(jobs[1..], results[1..], pending[1..]);
      assert Responses(jobs, results)[1..] == Responses(jobs[1..], results[1..]);
    }
  }

  /** Moving the front job to the end of another queue keeps the partition. */
  lemma FrontMoves(jobs: map<Id, Job>, w: Queues, w': Queues)
    requires Partition(jobs, w) && w.pending != [] && w'.provisional == w.provisional && w'.blocked == w.blocked
    requires w'.pending == Drop(w.pending, 0)
    requires || (w'.running == w.running + [w.pending[0]] && w'.rejected == w.rejected)
             || (w'.rejected == w.rejected + [w.pending[0]] && w'.running == w.running)
    ensures Partition(jobs, w')
  {
    forall x
      ensures Copies(w', x) == if x in jobs then 1 else 0
    {
      assert Copies(w, x) == if x in jobs then 1 else 0;
      NumDrop(w.pending, 0, x);
    }
  }

  lemma PartitionSameKeys(jobs: map<Id, Job>, jobs': map<Id, Job>, w: Queues)
    requires Partition(jobs, w) && jobs'.Keys == jobs.Keys
    ensures Partition(jobs', w)
  {
    forall x
      ensures Copies(w, x) == if x in jobs' then 1 else 0
    {
      assert x in jobs <==> x in jobs.Keys;
      assert x in jobs' <==> x in jobs'.Keys;
    }
  }

  lemma FrontKnown(jobs: map<Id, Job>, w: Queues)
    requires Partition(jobs, w) && w.pending != []
    ensures w.pending[0] in jobs
  {
    assert Copies(w, w.pending[0]) > 0;
  }

  /** A delivered answer finds its job at m_iter, and the end of the stream ends the pass. */
  lemma DeliverInStep(y: System)
    requires Lockstep(y) && y.stream != []
    ensures var s := y.policy; s.active && s.iter == 0
    ensures y.stream[0].Ok? ==> y.policy.queues.pending != [] && y.stream[0].jobid == y.policy.queues.pending[0]
    ensures Lockstep(System(OnResponse(y.policy, y.stream[0]), y.stream[1..]))
  {
    var s, w := y.policy, y.policy.queues;
    var t := OnResponse(s, y.stream[0]);
    if y.stream[0].Ok? {
      assert InStep(y.stream[1..], w.pending[1..]);
    }
    if w.pending != [] {
      FrontKnown(s.jobs, w);
      assert Drop(w.pending, 0) == w.pending[1..];
      if t.queues != w {
        FrontMoves(s.jobs, w, t.queues);
      }
      PartitionSameKeys(s.jobs, t.jobs, t.queues);
    }
  }

  lemma InsertKnown(s: Policy, id: Id, priority: nat, submit: real)
    requires Known(s)
    ensures Known(InsertJob(s, id, priority, submit))
  {
    var t := InsertJob(s, id, priority, submit);
    forall x
      ensures Copies(t.queues, x) == if x in t.jobs then 1 else 0
    {
      assert Copies(s.queues, x) == if x in s.jobs then 1 else 0;
      NumPlace(t.jobs, s.queues.provisional, id, x);
    }
  }

  lemma BeginKnown(s: Policy, depth: nat)
    requires Known(s)
    ensures Known(BeginPass(s, depth))
  {
    var t := BeginPass(s, depth);
    forall x
      ensures Copies(t.queues, x) == if x in t.jobs then 1 else 0
    {
      assert Copies(s.queues, x) == if x in s.jobs then 1 else 0;
      NumMerge(s.jobs, s.queues.pending, s.queues.provisional, x);
    }
  }

  /** A result for every packed job: the responder matches each until one fails. */
  predicate Enough(y: System, depth: nat, e: Event) {
    e.Pass? ==> |Packed(BeginPass(y.policy, depth).queues.pending, depth)| <= |e.results|
  }

  lemma StepLockstep(y: System, depth: nat, e: Event)
    requires Lockstep(y) && Enough(y, depth, e)
    ensures Lockstep(Step(y, depth, e))
  {
    match e
    case Insert(id, priority, submit) => InsertKnown(y.policy, id, priority, submit);
    case Deliver =>
      if y.stream != [] {
        DeliverInStep(y);
      }
    case Pass(results) =>
      if !y.policy.active {
        var s := BeginPass(y.policy, depth);
        BeginKnown(y.policy, depth);
        ResponsesInStep(Packed(s.queues.pending, depth), results, s.queues.pending);
      }
  }

  ghost predicate EnoughRun(y: System, depth: nat, es: seq<Event>)
    decreases |es|
  {
    es == [] || (Enough(y, depth, es[0]) && EnoughRun(Step(y, depth, es[0]), depth, es[1..]))
  }

  /** Over every run of inserts, passes and deliveries the two sides stay in step. */
  lemma {:induction false} RunLockstep(y: System, depth: nat, es: seq<Event>)
    requires Lockstep(y) && EnoughRun(y, depth, es)
    ensures Lockstep(Run(y, depth, es))
    decreases |es|
  {
    if es != [] {
      StepLockstep(y, depth, es[0]);
      RunLockstep(Step(y, depth, es[0]), depth, es[1..]);
    }
  }

  // ----- What a pass does

  /** The job that the answers rejected, given the queue they are about. */
  function Refused(rs: seq<Response>, pending: seq<Id>): (r: seq<Id>)
    ensures |r| <= 1
  {
    if rs == [] || pending == [] then []
    else
      match rs[0]
      case Ok(_, _) => Refused(rs[1..], pending[1..])
      case Err(e) => if Rejecting(e) then [pending[0]] else []
  }

  predicate NoPass(es: seq<Event>) {
    forall i :: 0 <= i < |es| ==> !es[i].Pass?
  }

  function Deliveries(es: seq<Event>): nat {
    if es == [] then 0 else (if es[0].Deliver? then 1 else 0) + Deliveries(es[1..])
  }

  function Min(a: nat, b: nat): nat {
    if a <= b then a else b
  }

  /** `w` is `v` after the answers `rs`. */
  ghost predicate After(v: Queues, rs: seq<Response>, w: Queues) {
    var n := |Started(rs)| + |Refused(rs, v.pending)|;
    && n <= |v.pending| && w.pending == v.pending[n..]
    && w.running == v.running + Started(rs)
    && w.rejected == v.rejected + Refused(rs, v.pending)
  }

  lemma DeliverOne(y: System)
    requires Lockstep(y) && y.stream != []
    ensures var w := OnResponse(y.policy, y.stream[0]).queues;
            After(y.policy.queues, [y.stream[0]], w)
  {
    DeliverInStep(y);
    if y.policy.queues.pending != [] {
      FrontKnown(y.policy.jobs, y.policy.queues);
    }
    if y.stream[0].Ok? {
      SuccessOne(y.policy, y.stream[0]);
    } else {
      FailureOne(y.policy, y.stream[0].error);
    }
  }

  lemma SuccessOne(s: Policy, r: Response)
    requires r.Ok? && s.active && s.iter == 0 && s.queues.pending != []
    requires s.queues.pending[0] == r.jobid && r.jobid in s.jobs
    ensures After(s.queues, [r], OnSuccess(s, r.jobid, r.at).queues)
  {
    assert [r][1..] == [] && Started([]) == [] && Refused([], s.queues.pending[1..]) == [];
    assert Drop(s.queues.pending, 0) == s.queues.pending[1..];
  }

  lemma FailureOne(s: Policy, e: Error)
    requires s.active && s.iter == 0 && (s.queues.pending != [] ==> s.queues.pending[0] in s.jobs)
    ensures After(s.queues, [Err(e)], OnFailure(s, e).queues)
  {
    assert Started([Err(e)]) == [];
    if s.queues.pending != [] {
      assert Drop(s.queues.pending, 0) == s.queues.pending[1..];
    }
  }

  lemma AfterStart(u: Queues, r: Response, v: Queues, rs: seq<Response>, w: Queues)
    requires r.Ok? && u.pending != [] && After(u, [r], v) && After(v, rs, w)
    ensures After(u, [r] + rs, w)
  {
    assert [r][1..] == [] && ([r] + rs)[1..] == rs;
    assert Started([r]) == [r.jobid];
    assert Refused([r], u.pending) == Refused([], u.pending[1..]) == [];
    assert v.pending == u.pending[1..];
    assert Started([r] + rs) == [r.jobid] + Started(rs);
    assert Refused([r] + rs, u.pending) == Refused(rs, v.pending);
  }

  lemma AfterError(u: Queues, r: Response, v: Queues, w: Queues)
    requires r.Err? && After(u, [r], v) && After(v, [], w)
    ensures After(u, [r], w)
  {
    assert Started([]) == [] && Refused([], v.pending) == [];
  }

  /** From `y` to `u` the first `d` answers were delivered, and account for every move. */
  ghost predicate Progressed(y: System, u: System, d: nat) {
    forall n {:trigger Accounts(y, u, n)} :: n == d ==> Accounts(y, u, n)
  }

  ghost predicate Accounts(y: System, u: System, d: nat) {
    d <= |y.stream| && u.stream == y.stream[d..] && After(y.policy.queues, y.stream[..d], u.policy.queues)
  }

  /** Whatever is inserted in between, the answers delivered so far account for every move. */
  lemma {:induction false} RunProgress(y: System, depth: nat, es: seq<Event>)
    requires Lockstep(y) && NoPass(es)
    ensures Progressed(y, Run(y, depth, es), Min(Deliveries(es), |y.stream|))
    decreases |es|
  {
    if es == [] {
      NoProgress(y);
    } else {
      var z, rest := Step(y, depth, es[0]), es[1..];
      StepLockstep(y, depth, es[0]);
      RunProgress(z, depth, rest);
      StepProgress(y, depth, es[0], Run(z, depth, rest), Min(Deliveries(rest), |z.stream|));
    }
  }

  lemma NoProgress(y: System)
    ensures Progressed(y, y, 0)
  {
    assert y.stream[..0] == [];
    assert Accounts(y, y, 0);
  }

  lemma StepProgress(y: System, depth: nat, e: Event, u: System, d: nat)
    requires Lockstep(y) && !e.Pass? && Progressed(Step(y, depth, e), u, d)
    ensures Progressed(y, u, if e.Deliver? && y.stream != [] then d + 1 else d)
  {
    if e.Deliver? && y.stream != [] {
      DeliverProgress(y, Step(y, depth, e), u, d);
    } else {
      InsertProgress(y, Step(y, depth, e), u, d);
    }
  }

  lemma DeliverProgress(y: System, z: System, u: System, d: nat)
    requires Lockstep(y) && y.stream != [] && z == System(OnResponse(y.policy, y.stream[0]), y.stream[1..])
    requires Progressed(z, u, d)
    ensures Progressed(y, u, d + 1)
  {
    assert Accounts(z, u, d);
    DeliverOne(y);
    DeliverInStep(y);
    Shifted(y.stream, d);
    AfterMore(y.policy.queues, y.stream[0], z.policy.queues, z.stream[..d], u.policy.queues);
    assert Accounts(y, u, d + 1);
  }

  lemma Shifted(stream: seq<Response>, d: nat)
    requires stream != [] && d < |stream|
    ensures stream[..d + 1] == [stream[0]] + stream[1..][..d] && stream[1..][d..] == stream[d + 1..]
  {}

  lemma AfterMore(u: Queues, r: Response, v: Queues, rs: seq<Response>, w: Queues)
    requires After(u, [r], v) && After(v, rs, w)
    requires r.Ok? ==> u.pending != []
    requires r.Err? ==> rs == []
    ensures After(u, [r] + rs, w)
  {
    if r.Ok? {
      AfterStart(u, r, v, rs, w);
    } else {
      AfterError(u, r, v, w);
      assert [r] + rs == [r];
    }
  }

  lemma InsertProgress(y: System, z: System, u: System, d: nat)
    requires Progressed(z, u, d) && z.stream == y.stream
    requires var v, w := y.policy.queues, z.policy.queues;
             v.pending == w.pending && v.running == w.running && v.rejected == w.rejected
    ensures Progressed(y, u, d)
  {
    assert Accounts(z, u, d);
    assert Accounts(y, u, d);
  }

  /** How many jobs match before the first that does not. */
  function Leading(jobs: seq<Id>, results: seq<Result>): (k: nat)
    requires |jobs| <= |results|
    ensures k <= |jobs|
    ensures forall i :: 0 <= i < k ==> results[i].Matched?
    ensures k < |jobs| ==> results[k].Failed?
  {
    if jobs == [] || results[0].Failed? then 0 else 1 + Leading(jobs[1..], results[1..])
  }

  lemma {:induction false} ResponsesStart(jobs: seq<Id>, results: seq<Result>)
    requires |jobs| <= |results|
    ensures Started(Responses(jobs, results)) == jobs[..Leading(jobs, results)]
  {
    if jobs != [] && results[0].Matched? {
      var rest := Responses(jobs[1..], results[1..]);
      ResponsesStart(jobs[1..], results[1..]);
      StartedCons(jobs[0], results[0].at, rest);
      var k := Leading(jobs[1..], results[1..]);
      assert [jobs[0]] + jobs[1..][..k] == jobs[..k + 1];
    }
  }

  lemma StartedCons(id: Id, at: int, rs: seq<Response>)
    ensures Started([Ok(id, at)] + rs) == [id] + Started(rs)
  {
    assert ([Ok(id, at)] + rs)[1..] == rs;
  }

  lemma {:induction false} ResponsesRefuse(jobs: seq<Id>, results: seq<Result>, pending: seq<Id>)
    requires |jobs| <= |results| && jobs <= pending
    ensures var k := Leading(jobs, results);
            Refused(Responses(jobs, results), pending) ==
            if k < |jobs| && Rejecting(results[k].error) then [jobs[k]] else []
  {
    if jobs != [] && results[0].Matched? {
      ResponsesRefuse(jobs[1..], results[1..], pending[1..]);
      assert Responses(jobs, results)[1..] == Responses(jobs[1..], results[1..]);
    }
  }

  /** Once the whole stream is delivered the loop is inactive. */
  lemma AllDelivered(y: System, depth: nat, es: seq<Event>)
    requires Lockstep(y) && NoPass(es) && Deliveries(es) >= |y.stream|
    ensures var u := Run(y, depth, es);
            !u.policy.active && u.stream == [] && After(y.policy.queues, y.stream, u.policy.queues)
  {
    RunProgress(y, depth, es);
    assert Accounts(y, Run(y, depth, es), |y.stream|);
    StaysInStep(y, depth, es);
    assert y.stream[..|y.stream|] == y.stream;
  }

  /**
   * A pass starts exactly the packed jobs before the first that does not match, in order; it rejects
   * that one and no other, unless it was merely busy; and its last answer leaves the loop inactive.
   */
  lemma PassOutcome(y: System, depth: nat, results: seq<Result>, es: seq<Event>)
    requires Lockstep(y) && !y.policy.active && NoPass(es)
    requires |Packed(BeginPass(y.policy, depth).queues.pending, depth)| <= |results|
    requires Deliveries(es) >= |Step(y, depth, Pass(results)).stream|
    ensures var v := BeginPass(y.policy, depth).queues;
            var jobs := Packed(v.pending, depth);
            var k := Leading(jobs, results);
            var rejected := if k < |jobs| && Rejecting(results[k].error) then [jobs[k]] else [];
            var u := Run(Step(y, depth, Pass(results)), depth, es);
            && !u.policy.active && u.stream == []
            && u.policy.queues.running == v.running + v.pending[..k]
            && u.policy.queues.rejected == v.rejected + rejected
            && k + |rejected| <= |v.pending| && u.policy.queues.pending == v.pending[k + |rejected|..]
  {
    var z := Step(y, depth, Pass(results));
    var v := BeginPass(y.policy, depth).queues;
    var jobs := Packed(v.pending, depth);
    StepLockstep(y, depth, Pass(results));
    AllDelivered(z, depth, es);
    if v.pending != [] {
      ResponsesStart(jobs, results);
      ResponsesRefuse(jobs, results, v.pending);
      assert jobs[..Leading(jobs, results)] == v.pending[..Leading(jobs, results)];
    }
  }

  lemma {:induction false} StaysInStep(y: System, depth: nat, es: seq<Event>)
    requires Lockstep(y) && NoPass(es)
    ensures Lockstep(Run(y, depth, es))
    decreases |es|
  {
    if es != [] {
      StepLockstep(y, depth, es[0]);
      StaysInStep(Step(y, depth, es[0]), depth, es[1..]);
    }
  }

  // ----- Start times

  /** A job that runs is not touched again. */
  lemma {:induction false} RunningIsKept(y: System, depth: nat, es: seq<Event>, id: Id)
    requires Lockstep(y) && NoPass(es) && id in y.policy.queues.running && id in y.policy.jobs
    ensures var u := Run(y, depth, es).policy; id in u.jobs && u.jobs[id] == y.policy.jobs[id]
    decreases |es|
  {
    if es != [] {
      StepKeepsRunning(y, depth, es[0], id);
      StepLockstep(y, depth, es[0]);
      RunningIsKept(Step(y, depth, es[0]), depth, es[1..], id);
    }
  }

  lemma StepKeepsRunning(y: System, depth: nat, e: Event, id: Id)
    requires Lockstep(y) && !e.Pass? && id in y.policy.queues.running && id in y.policy.jobs
    ensures var t := Step(y, depth, e).policy;
            id in t.queues.running && id in t.jobs && t.jobs[id] == y.policy.jobs[id]
  {
    var w := y.policy.queues;
    assert Copies(w, id) <= 1;
    assert w.pending != [] && w.pending[0] == id ==> Num(w.pending, id) >= 1;
    assert Num(w.running, id) >= 1;
  }

  /** Every job that an answer started has the start time of its match. */
  lemma {:induction false} StartTimes(y: System, depth: nat, es: seq<Event>, i: nat)
    requires Lockstep(y) && NoPass(es) && i < |y.stream| && i < Deliveries(es) && y.stream[i].Ok?
    ensures var u, id := Run(y, depth, es).policy, y.stream[i].jobid;
            id in u.jobs && u.jobs[id].at == y.stream[i].at && u.jobs[id].selection == Immediate
    decreases |es|
  {
    var z := Step(y, depth, es[0]);
    StepLockstep(y, depth, es[0]);
    if es[0].Deliver? {
      DeliverInStep(y);
      if i == 0 {
        var id := y.stream[0].jobid;
        FrontKnown(y.policy.jobs, y.policy.queues);
        assert id in z.policy.queues.running;
        RunningIsKept(z, depth, es[1..], id);
      } else {
        StartTimes(z, depth, es[1..], i - 1);
      }
    } else {
      StartTimes(z, depth, es[1..], i);
    }
  }

  // ----- The queue-depth flag

  /** A new job is inserted during the run. */
  predicate Inserts(y: System, depth: nat, es: seq<Event>)
    decreases |es|
  {
    es != [] && ((es[0].Insert? && es[0].id !in y.policy.jobs) || Inserts(Step(y, depth, es[0]), depth, es[1..]))
  }

  /** The answers ask for another pass. */
  predicate Asks(rs: seq<Response>, limited: bool) {
    rs != [] && (rs[0] == Err(NoDev) || (rs[0] == Err(NoData) && limited) || Asks(rs[1..], limited))
  }

  lemma {:induction false} RunAsks(y: System, depth: nat, es: seq<Event>)
    requires Lockstep(y) && NoPass(es)
    ensures Run(y, depth, es).policy.schedulable <==>
              || y.policy.schedulable || Inserts(y, depth, es)
              || Asks(y.stream[..Min(Deliveries(es), |y.stream|)], y.policy.limited)
    decreases |es|
  {
    var d := Min(Deliveries(es), |y.stream|);
    if es == [] {
      assert y.stream[..0] == [];
    } else {
      var z := Step(y, depth, es[0]);
      StepLockstep(y, depth, es[0]);
      RunAsks(z, depth, es[1..]);
      if es[0].Deliver? && y.stream != [] {
        AsksStep(y, d);
      }
    }
  }

  lemma AsksStep(y: System, d: nat)
    requires Lockstep(y) && 0 < d <= |y.stream|
    ensures var z := System(OnResponse(y.policy, y.stream[0]), y.stream[1..]);
            (z.policy.schedulable || Asks(z.stream[..d - 1], z.policy.limited)) <==>
            (y.policy.schedulable || Asks(y.stream[..d], y.policy.limited))
  {
    DeliverInStep(y);
    assert y.stream[..d][1..] == y.stream[1..][..d - 1];
    if y.stream[0].Err? {
      assert y.stream[1..] == [];
    }
  }

  /** The error that ends the answers to a request. */
  function LastError(jobs: seq<Id>, results: seq<Result>): Error
    requires |jobs| <= |results|
  {
    var k := Leading(jobs, results);
    if k == |jobs| then NoData else results[k].error
  }

  lemma {:induction false} ResponsesAsk(jobs: seq<Id>, results: seq<Result>, limited: bool)
    requires |jobs| <= |results|
    ensures var e := LastError(jobs, results);
            Asks(Responses(jobs, results), limited) <==> e == NoDev || (e == NoData && limited)
  {
    var rs := Responses(jobs, results);
    if jobs != [] && results[0].Matched? {
      ResponsesAsk(jobs[1..], results[1..], limited);
      assert rs[1..] == Responses(jobs[1..], results[1..]);
    } else {
      assert rs[1..] == [];
    }
  }

  /**
   * A delivered pass asks for another one exactly when a job was inserted meanwhile, when its last job cannot be
   * satisfied, or when all packed jobs matched and jobs are left over or the flag was set by an earlier pass.
   */
  lemma LimitMeaning(y: System, depth: nat, results: seq<Result>, es: seq<Event>)
    requires Lockstep(y) && !y.policy.active && NoPass(es) && BeginPass(y.policy, depth).active
    requires |Packed(BeginPass(y.policy, depth).queues.pending, depth)| <= |results|
    requires Deliveries(es) >= |Step(y, depth, Pass(results)).stream|
    ensures var v := BeginPass(y.policy, depth).queues;
            var jobs := Packed(v.pending, depth);
            var e := LastError(jobs, results);
            var z := Step(y, depth, Pass(results));
            Run(z, depth, es).policy.schedulable <==>
              || Inserts(z, depth, es) || e == NoDev
              || (e == NoData && (y.policy.limited || |jobs| < |v.pending|))
  {
    var z := Step(y, depth, Pass(results));
    var jobs := Packed(z.policy.queues.pending, depth);
    StepLockstep(y, depth, Pass(results));
    RunAsks(z, depth, es);
    assert z.stream[..|z.stream|] == z.stream;
    ResponsesAsk(jobs, results, z.policy.limited);
  }

  /**
   * The flag outlives a pass that ends on an error.  With queue depth 1, rejecting the first of two
   * jobs and starting the second leaves no job, and still asks for another pass.
   */
  lemma StaleFlag(s: Policy)
    requires s.jobs.Keys == {1, 2} && s.queues == Queues([1, 2], [], [], [], []) && !s.active && !s.limited
    ensures var first := OnFailure(BeginPass(s, 1), Other);
            var last := OnFailure(OnSuccess(BeginPass(first, 1), 2, 0), NoData);
            last.queues == Queues([], [], [], [2], [1]) && last.schedulable
  {
    var first := OnFailure(BeginPass(s, 1), Other);
    assert Drop([1, 2], 0) == [2];
    assert first.queues == Queues([2], [], [], [], [1]) && first.limited && 2 in first.jobs;
    var v := BeginPass(first, 1);
    assert v.queues == first.queues && v.limited && v.active;
    assert Drop([2], 0) == [];
    assert OnSuccess(v, 2, 0).queues == Queues([], [], [], [2], [1]);
  }

  // ----- The policy object

  /** queue_policy_fcfs_t: each method changes the fields as the functions above change their snapshot. */
  class FcfsPolicy {
    const depth: nat
    var jobs: map<Id, Job>
    var queues: Queues
    var iter: nat
    var active: bool
    var limited: bool
    var schedulable: bool
    var scheduled: bool
    var pqCnt: nat

    constructor (depth: nat)
      ensures this.depth == depth && !active && Lockstep(System(Snapshot(), []))
    {
      this.depth := depth;
      jobs, queues, pqCnt := map[], Queues([], [], [], [], []), 0;
      iter, active, limited, schedulable, scheduled := 0, false, false, false, false;
    }

    function Snapshot(): Policy
      reads this
    {
      Policy(jobs, queues, iter, active, limited, schedulable, scheduled, pqCnt)
    }

    method Insert(id: Id, priority: nat, submit: real) returns (ok: bool)
      modifies this
      ensures Snapshot() == InsertJob(old(Snapshot()), id, priority, submit) && (ok <==> id !in old(jobs))
    {
      if id in jobs {
        return false;
      }
      jobs := jobs[id := Job(Key(priority, submit, pqCnt), 0, 0, false, false, Unknown, "")];
      pqCnt := pqCnt + 1;
      queues := queues.(provisional := Place(jobs, queues.provisional, id));
      schedulable := true;
      ok := true;
    }

    method PackJobs() returns (packed: seq<Id>)
      modifies `limited
      ensures packed == Packed(queues.pending, depth)
      ensures limited == (old(limited) || depth < |queues.pending|)
    {
      packed := [];
      var qd := 0;
      while qd < |queues.pending| && qd < depth
        invariant qd <= |queues.pending| && qd <= depth && packed == queues.pending[..qd]
        invariant limited == old(limited)
      {
        packed := packed + [queues.pending[qd]];
        qd := qd + 1;
      }
      if qd == depth && |queues.pending| != depth {
        limited := true;
      }
    }

    /** run_sched_loop: the jobs of the one match request, None if there is none. */
    method RunSchedLoop() returns (request: Option<seq<Id>>)
      modifies this
      ensures old(active) ==> Snapshot() == old(Snapshot()) && request == None
      ensures !old(active) ==>
                && Snapshot() == BeginPass(old(Snapshot()), depth)
                && request == if active then Some(Packed(queues.pending, depth)) else None
    {
      if active {
        return None;
      }
      schedulable := false;
      queues := queues.(pending := Merge(jobs, queues.pending, queues.provisional));
      queues := queues.(provisional := []);
      iter := 0;
      if queues.pending == [] {
        return None;
      }
      var packed := PackJobs();
      active := true;
      request := Some(packed);
    }

    /** handle_match_success; a refused answer also ends the pass in match_allocate_multi_cont. */
    method HandleMatchSuccess(jobid: Id, at: int)
      requires active ==> iter < |queues.pending| && queues.pending[iter] in jobs
      modifies this
      ensures Snapshot() == OnSuccess(old(Snapshot()), jobid, at)
    {
      if !active {
        return;
      }
      if queues.pending[iter] != jobid {
        active := false;
        return;
      }
      jobs := jobs[jobid := jobs[jobid].(reserved := false, at := at, selection := Immediate)];
      queues := queues.(running := queues.running + [jobid]);
      scheduled := true;
      queues := queues.(pending := Drop(queues.pending, iter));
    }

    method HandleMatchFailure(e: Error)
      requires active && Rejecting(e) ==> iter < |queues.pending| && queues.pending[iter] in jobs
      modifies this
      ensures Snapshot() == OnFailure(old(Snapshot()), e)
    {
      if !active {
        return;
      }
      if e != Busy && e != NoData {
        var id := queues.pending[iter];
        jobs := jobs[id := jobs[id].(note := if e == NoDev then "unsatisfiable" else "match error")];
        queues := queues.(rejected := queues.rejected + [id]);
        queues := queues.(pending := Drop(queues.pending, iter));
      }
      if e == NoDev {
        schedulable := true;
      } else if e == NoData && limited {
        schedulable := true;
        limited := false;
      }
      active := false;
      scheduled := true;
    }
  }
}
