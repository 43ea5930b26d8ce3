/**
 * The resumable scheduling loop of the backfill policies:
 * qmanager/policies/queue_policy_bf_base_impl.hpp with the queues of
 * qmanager/policies/base/queue_policy_base.hpp.  One job is matched at a time;
 * the answer to a match moves the job and issues the next match.
 */
module Backfill {
  import opened Common
  import opened PendingQueue

  /** The state of a pass; `cursor` is m_in_progress_iter as an index into the pending queue. */
  datatype Loop = Loop(active: bool, cursor: nat, reservationCnt: nat, scheduledCnt: nat, tryReserve: bool, reserved: seq<Id>)

  datatype Flags = Flags(reconsider: bool, scheduled: bool, schedulable: bool, dirty: bool)

  datatype Params = Params(queueDepth: nat, reservationDepth: nat)

  datatype State = State(jobs: map<Id, Job>, queues: Queues, loop: Loop, flags: Flags, pqCnt: nat)

  /** A match request: allocate, or allocate or else reserve. */
  datatype Request = Request(id: Id, orElseReserve: bool)

  datatype Error = NoData | Busy | NoDev | Other

  datatype Event =
    | Insert(id: Id, priority: nat, submit: real)
    | Pass(cancelOk: bool)
    | Success(jobid: Id, isReserved: bool, at: int)
    | Failure(error: Error)
    | CancelLoop
    | Reconsider
    | ResetScheduled

  // ----- The answer to a match

  /** What an answer means for the job at the cursor. */
  datatype Outcome = Reserves(at: int) | Starts(at: int) | Rejects(note: string) | Skips | Blocks

  function OutcomeOf(e: Event, tryReserve: bool): Option<Outcome> {
    match e
    case Success(_, isReserved, at) => Some(if isReserved then Reserves(at) else Starts(at))
    case Failure(NoData) => None
    // A request that would have reserved, and could not, waits for a change of resources.
    case Failure(Busy) => Some(if tryReserve then Blocks else Skips)
    case Failure(NoDev) => Some(Rejects("unsatisfiable"))
    case Failure(Other) => Some(Rejects("match error"))
    case _ => None
  }

  /** How a job that starts now is categorised. */
  function Label(wasReserved: bool, reservationCnt: nat): Selection {
    if wasReserved then Reserved else if reservationCnt > 0 then Backfilled else Immediate
  }

  function NewJob(job: Job, o: Outcome, reservationCnt: nat): Job {
    match o
    case Reserves(at) => job.(reserved := true, oldAt := job.at, at := at, wasReserved := true, selection := Reserved)
    case Starts(at) => job.(reserved := false, oldAt := job.at, at := at, selection := Label(job.wasReserved, reservationCnt))
    case Rejects(note) => job.(note := note)
    case _ => if job.at == 0 then job else job.(at := 0, selection := Unknown, wasReserved := false)
  }

  function NewQueues(jobs: map<Id, Job>, w: Queues, cursor: nat, o: Outcome): Queues
    requires cursor < |w.pending|
  {
    var id := w.pending[cursor];
    match o
    case Starts(_) => w.(pending := Drop(w.pending, cursor), running := w.running + [id])
    case Rejects(_) => w.(pending := Drop(w.pending, cursor), rejected := w.rejected + [id])
    case Blocks => w.(pending := Drop(w.pending, cursor), blocked := Place(jobs, w.blocked, id))
    case _ => w
  }

  function NewLoop(l: Loop, id: Id, o: Outcome): Loop {
    match o
    case Reserves(_) =>
      l.(cursor := l.cursor + 1, reserved := l.reserved + [id], reservationCnt := l.reservationCnt + 1,
         scheduledCnt := l.scheduledCnt + 1)
    case Skips => l.(cursor := l.cursor + 1, scheduledCnt := l.scheduledCnt + 1)
    case Blocks => l
    case _ => l.(scheduledCnt := l.scheduledCnt + 1)
  }

  function NewFlags(f: Flags, job: Job, o: Outcome): Flags {
    match o
    case Skips => f.(dirty := f.dirty || job.at != 0)
    case Blocks => f.(dirty := f.dirty || job.at != 0)
    case _ => f.(scheduled := true)
  }

  predicate AtJob(s: State) {
    s.loop.active && s.loop.cursor < |s.queues.pending| && s.queues.pending[s.loop.cursor] in s.jobs
  }

  function Current(s: State): Id
    requires AtJob(s)
  {
    s.queues.pending[s.loop.cursor]
  }

  /** What an answer does before the next match is issued. */
  function Apply(s: State, o: Outcome): State
    requires AtJob(s)
  {
    var id := Current(s);
    var job := s.jobs[id];
    var jobs := s.jobs[id := NewJob(job, o, s.loop.reservationCnt)];
    State(jobs, NewQueues(jobs, s.queues, s.loop.cursor, o), NewLoop(s.loop, id, o), NewFlags(s.flags, job, o), s.pqCnt)
  }

  /** The answer to the outstanding match, if the event is one. */
  function Answer(s: State, e: Event): (o: Option<Outcome>)
    ensures o.Some? ==> AtJob(s)
  {
    if AtJob(s) && (e.Success? ==> e.jobid == Current(s)) then OutcomeOf(e, s.loop.tryReserve) else None
  }

  // ----- The loop

  /** process_provisional_reconsider: the blocked jobs become pending again. */
  function Unblock(s: State): State {
    if !s.flags.reconsider then s
    else
      s.(queues := s.queues.(pending := Merge(s.jobs, s.queues.pending, s.queues.blocked), blocked := []),
         flags := s.flags.(reconsider := false, schedulable := s.flags.schedulable || s.queues.blocked != []))
  }

  /** set_sched_loop_active (false) */
  function Stop(s: State): State {
    if s.loop.active then Unblock(s.(loop := s.loop.(active := false))) else s
  }

  /** No further match in this pass. */
  predicate PassOver(s: State, p: Params) {
    s.loop.cursor >= |s.queues.pending| || s.loop.scheduledCnt >= p.queueDepth
  }

  /** next_match_iter: the next match, or the end of the pass. */
  function NextMatch(s: State, p: Params): (State, Option<Request>) {
    if PassOver(s, p) then
      var t := Stop(s);
      (if s.loop.cursor < |s.queues.pending| && s.flags.scheduled then t.(flags := t.flags.(schedulable := true)) else t, None)
    else
      var try := s.loop.reservationCnt < p.reservationDepth;
      (s.(loop := s.loop.(tryReserve := try)), Some(Request(s.queues.pending[s.loop.cursor], try)))
  }

  /** The start of a pass: all that waits becomes pending, and the cursor is at the front. */
  function Begin(s: State): State {
    s.(queues := s.queues.(pending := Merge(s.jobs, s.queues.pending, s.queues.provisional), provisional := []),
       loop := s.loop.(active := true, cursor := 0, reservationCnt := 0, scheduledCnt := 0, reserved := []),
       flags := s.flags.(schedulable := false))
  }

  function InsertJob(s: State, id: Id, priority: nat, submit: real): State {
    if id in s.jobs then s
    else
      var jobs := s.jobs[id := Job(Key(priority, submit, s.pqCnt), 0, 0, false, false, Unknown, "")];
      State(jobs, s.queues.(provisional := Place(jobs, s.queues.provisional, id)), s.loop,
            s.flags.(schedulable := true), s.pqCnt + 1)
  }

  function Step(s: State, p: Params, e: Event): (State, Option<Request>) {
    match e
    case Insert(id, priority, submit) => (InsertJob(s, id, priority, submit), None)
    case Pass(cancelOk) =>
      if s.loop.active then (s, None)
      else if cancelOk then NextMatch(Begin(s), p)
      else (s.(flags := s.flags.(schedulable := false), loop := s.loop.(reserved := [])), None)
    case CancelLoop => (if s.loop.active then s.(loop := s.loop.(scheduledCnt := p.queueDepth)) else s, None)
    case Reconsider =>
      var t := s.(flags := s.flags.(reconsider := true));
      (if s.loop.active then t else Unblock(t), None)
    case ResetScheduled => (s.(flags := s.flags.(scheduled := false, dirty := false)), None)
    case Success(_, _, _) =>
      // An answer for another job ends the pass.
      if Answer(s, e).Some? then NextMatch(Apply(s, Answer(s, e).value), p) else (Stop(s), None)
    case Failure(_) =>
      if Answer(s, e).Some? then NextMatch(Apply(s, Answer(s, e).value), p) else (s, None)
  }

  function Run(s: State, p: Params, es: seq<Event>): State
    decreases |es|
  {
    if es == [] then s else Run(Step(s, p, es[0]).0, p, es[1..])
  }

  // ----- Conservation: every job is in exactly one queue

  lemma NewQueuesConserve(jobs: map<Id, Job>, w: Queues, cursor: nat, o: Outcome, x: Id)
    requires cursor < |w.pending|
    ensures Copies(NewQueues(jobs, w, cursor, o), x) == Copies(w, x)
  {
    NumDrop(w.pending, cursor, x);
    NumPlace(jobs, w.blocked, w.pending[cursor], x);
  }

  lemma UnblockConserves(s: State, x: Id)
    ensures Copies(Unblock(s).queues, x) == Copies(s.queues, x)
  {
    NumMerge(s.jobs, s.queues.pending, s.queues.blocked, x);
  }

  lemma NextConserves(s: State, p: Params, x: Id)
    ensures Copies(NextMatch(s, p).0.queues, x) == Copies(s.queues, x)
  {
    UnblockConserves(s.(loop := s.loop.(active := false)), x);
  }

  lemma StepConserves(s: State, p: Params, e: Event, x: Id)
    ensures Copies(Step(s, p, e).0.queues, x) == Copies(s.queues, x) + if e.Insert? && x == e.id && x !in s.jobs then 1 else 0
  {
    match e
    case Insert(id, _, _) => NumPlace(Step(s, p, e).0.jobs, s.queues.provisional, id, x);
    case Pass(_) =>
      NumMerge(s.jobs, s.queues.pending, s.queues.provisional, x);
      NextConserves(Begin(s), p, x);
    case CancelLoop =>
    case Reconsider => UnblockConserves(s.(flags := s.flags.(reconsider := true)), x);
    case ResetScheduled =>
    case Success(_, _, _) => AnswerConserves(s, p, e, x);
    case Failure(_) => AnswerConserves(s, p, e, x);
  }

  lemma AnswerConserves(s: State, p: Params, e: Event, x: Id)
    requires e.Success? || e.Failure?
    ensures Copies(Step(s, p, e).0.queues, x) == Copies(s.queues, x)
  {
    UnblockConserves(s.(loop := s.loop.(active := false)), x);
    var o := Answer(s, e);
    if o.Some? {
      var t := Apply(s, o.value);
      NewQueuesConserve(t.jobs, s.queues, s.loop.cursor, o.value, x);
      NextConserves(t, p, x);
    }
  }

  lemma StepJobs(s: State, p: Params, e: Event)
    ensures Step(s, p, e).0.jobs.Keys == s.jobs.Keys + if e.Insert? then {e.id} else {}
  {
    if e.Insert? {
      assert InsertJob(s, e.id, e.priority, e.submit).jobs.Keys == s.jobs.Keys + {e.id};
    } else if Answer(s, e).Some? {
      assert Apply(s, Answer(s, e).value).jobs.Keys == s.jobs.Keys;
    }
  }

  /** Each step keeps every job in exactly one of pending, provisional, blocked, running and rejected. */
  lemma StepPartition(s: State, p: Params, e: Event)
    requires Partition(s.jobs, s.queues)
    ensures Partition(Step(s, p, e).0.jobs, Step(s, p, e).0.queues)
  {
    var t := Step(s, p, e).0;
    StepJobs(s, p, e);
    forall x
      ensures Copies(t.queues, x) == if x in t.jobs then 1 else 0
    {
      assert Copies(s.queues, x) == if x in s.jobs then 1 else 0;
      StepConserves(s, p, e, x);
    }
  }

  // ----- Order: the waiting queues stay in key order

  ghost predicate InOrder(s: State) {
    Partition(s.jobs, s.queues) && Ordered(s.jobs, s.queues) && Stamped(s.jobs, s.pqCnt)
  }

  lemma UnblockOrder(s: State)
    requires InOrder(s)
    ensures Ordered(s.jobs, Unblock(s).queues)
  {
    PartitionApart(s.jobs, s.queues);
    MergeSorted(s.jobs, s.pqCnt, s.queues.pending, s.queues.blocked);
  }

  lemma NextOrder(s: State, p: Params)
    requires InOrder(s)
    ensures Ordered(s.jobs, NextMatch(s, p).0.queues)
  {
    UnblockOrder(s.(loop := s.loop.(active := false)));
  }

  lemma ApplyOrder(s: State, o: Outcome)
    requires InOrder(s) && AtJob(s)
    ensures InOrder(Apply(s, o))
  {
    var t := Apply(s, o);
    var w := s.queues;
    ApplySorted(s, o);
    forall x
      ensures Copies(t.queues, x) == if x in t.jobs then 1 else 0
    {
      assert Copies(w, x) == if x in s.jobs then 1 else 0;
      NewQueuesConserve(t.jobs, w, s.loop.cursor, o, x);
    }
  }

  lemma ApplySorted(s: State, o: Outcome)
    requires InOrder(s) && AtJob(s)
    ensures Ordered(Apply(s, o).jobs, Apply(s, o).queues) && Stamped(Apply(s, o).jobs, Apply(s, o).pqCnt)
  {
    var t := Apply(s, o);
    var w := s.queues;
    assert SameKeys(s.jobs, t.jobs);
    SortedSameKeys(s.jobs, t.jobs, w.pending);
    SortedSameKeys(s.jobs, t.jobs, w.provisional);
    SortedSameKeys(s.jobs, t.jobs, w.blocked);
    assert Stamped(t.jobs, t.pqCnt);
    DropSorted(t.jobs, w.pending, s.loop.cursor);
    PartitionApart(s.jobs, w);
    assert Apart(t.jobs, w.blocked, [Current(s)]);
    PlaceSorted(t.jobs, t.pqCnt, w.blocked, Current(s));
  }

  lemma InsertOrder(s: State, id: Id, priority: nat, submit: real)
    requires InOrder(s)
    ensures Ordered(InsertJob(s, id, priority, submit).jobs, InsertJob(s, id, priority, submit).queues)
    ensures var t := InsertJob(s, id, priority, submit); Stamped(t.jobs, t.pqCnt)
  {
    if id !in s.jobs {
      var t := InsertJob(s, id, priority, submit);
      assert SameKeys(s.jobs, t.jobs);
      SortedSameKeys(s.jobs, t.jobs, s.queues.pending);
      SortedSameKeys(s.jobs, t.jobs, s.queues.provisional);
      SortedSameKeys(s.jobs, t.jobs, s.queues.blocked);
      PartitionApart(s.jobs, s.queues);
      PlaceSorted(t.jobs, t.pqCnt, s.queues.provisional, id);
    }
  }

  lemma StepOrder(s: State, p: Params, e: Event)
    requires InOrder(s)
    ensures InOrder(Step(s, p, e).0)
  {
    StepPartition(s, p, e);
    if e.Insert? {
      InsertOrder(s, e.id, e.priority, e.submit);
    } else if e.Pass? {
      BeginOrder(s);
      NextOrder(Begin(s), p);
    } else if e.Reconsider? {
      UnblockOrder(s.(flags := s.flags.(reconsider := true)));
    } else if e.Success? || e.Failure? {
      UnblockOrder(s.(loop := s.loop.(active := false)));
      if Answer(s, e).Some? {
        ApplyOrder(s, Answer(s, e).value);
        NextOrder(Apply(s, Answer(s, e).value), p);
      }
    }
  }

  lemma BeginOrder(s: State)
    requires InOrder(s)
    ensures InOrder(Begin(s))
  {
    PartitionApart(s.jobs, s.queues);
    MergeSorted(s.jobs, s.pqCnt, s.queues.pending, s.queues.provisional);
    forall x
      ensures Copies(Begin(s).queues, x) == if x in s.jobs then 1 else 0
    {
      assert Copies(s.queues, x) == if x in s.jobs then 1 else 0;
      NumMerge(s.jobs, s.queues.pending, s.queues.provisional, x);
    }
  }

  // ----- Reservations and estimates

  /**
   * In a pass the cursor is at a job, the jobs reserved in the pass are before it, as many as were
   * counted, within the depth, and the outstanding request would reserve exactly when the depth allows.
   */
  ghost predicate LoopOk(w: Queues, l: Loop, p: Params) {
    l.active ==>
      && l.cursor < |w.pending|
      && l.reservationCnt == |l.reserved| <= p.reservationDepth
      && l.tryReserve == (l.reservationCnt < p.reservationDepth)
      && Passed(w.pending, l.cursor, l.reserved)
  }

  ghost predicate Passed(pending: seq<Id>, cursor: nat, reserved: seq<Id>) {
    cursor <= |pending| && forall k :: 0 <= k < |reserved| ==> reserved[k] in pending[..cursor]
  }

  /** A reservation answers only a request to reserve, and is for a time other than 0. */
  predicate Fair(s: State, e: Event) {
    Answer(s, e).Some? && Answer(s, e).value.Reserves? ==> s.loop.tryReserve && Answer(s, e).value.at != 0
  }

  predicate FairRun(s: State, p: Params, es: seq<Event>)
    decreases |es|
  {
    es == [] || (Fair(s, es[0]) && FairRun(Step(s, p, es[0]).0, p, es[1..]))
  }

  lemma NextLoop(s: State, p: Params)
    requires s.loop.reservationCnt == |s.loop.reserved| <= p.reservationDepth
    requires Passed(s.queues.pending, s.loop.cursor, s.loop.reserved)
    ensures LoopOk(NextMatch(s, p).0.queues, NextMatch(s, p).0.loop, p)
  {}

  lemma ApplyLoop(s: State, o: Outcome, p: Params)
    requires AtJob(s) && LoopOk(s.queues, s.loop, p) && (o.Reserves? ==> s.loop.tryReserve)
    ensures var t := Apply(s, o);
            && t.loop.reservationCnt == |t.loop.reserved| <= p.reservationDepth
            && Passed(t.queues.pending, t.loop.cursor, t.loop.reserved)
  {
    var c, ps := s.loop.cursor, s.queues.pending;
    assert Drop(ps, c)[..c] == ps[..c];
    assert ps[..c + 1] == ps[..c] + [ps[c]];
  }

  lemma StepLoop(s: State, p: Params, e: Event)
    requires LoopOk(s.queues, s.loop, p) && Fair(s, e)
    ensures LoopOk(Step(s, p, e).0.queues, Step(s, p, e).0.loop, p)
  {
    if e.Pass? {
      NextLoop(Begin(s), p);
    } else if (e.Success? || e.Failure?) && Answer(s, e).Some? {
      ApplyLoop(s, Answer(s, e).value, p);
      NextLoop(Apply(s, Answer(s, e).value), p);
    }
  }

  predicate Waiting(w: Queues, x: Id) {
    x in w.pending || x in w.provisional || x in w.blocked
  }

  /** A waiting job has a start estimate exactly when it was reserved. */
  ghost predicate Estimate(jobs: map<Id, Job>, w: Queues, x: Id) {
    x in jobs && Waiting(w, x) ==> (jobs[x].wasReserved <==> jobs[x].at != 0)
  }

  ghost predicate Estimates(s: State) {
    forall x {:trigger Estimate(s.jobs, s.queues, x)} :: Estimate(s.jobs, s.queues, x)
  }

  lemma StopWaiting(s: State, p: Params, x: Id)
    ensures Waiting(Unblock(s).queues, x) <==> Waiting(s.queues, x)
    ensures Waiting(Stop(s).queues, x) <==> Waiting(s.queues, x)
    ensures Waiting(NextMatch(s, p).0.queues, x) <==> Waiting(s.queues, x)
  {
    MergeMembers(s.jobs, s.queues.pending, s.queues.blocked, x);
  }

  lemma ApplyEstimate(s: State, o: Outcome, x: Id)
    requires AtJob(s) && Partition(s.jobs, s.queues) && Estimate(s.jobs, s.queues, x) && (o.Reserves? ==> o.at != 0)
    ensures Estimate(Apply(s, o).jobs, Apply(s, o).queues, x)
  {
    var id, w := Current(s), s.queues;
    var t := Apply(s, o);
    assert Copies(w, x) <= 1;
    NewQueuesConserve(t.jobs, w, s.loop.cursor, o, x);
    PlaceMembers(t.jobs, w.blocked, id);
    if x == id {
      assert x in w.pending && Waiting(w, x);
      if o.Starts? {
        assert x in t.queues.running;
        assert Num(t.queues.running, x) >= 1;
      }
    } else if Waiting(t.queues, x) {
      assert Drop(w.pending, s.loop.cursor) == w.pending[..s.loop.cursor] + w.pending[s.loop.cursor + 1..];
      assert Waiting(w, x);
    }
  }

  lemma InsertEstimate(s: State, id: Id, priority: nat, submit: real, x: Id)
    requires Partition(s.jobs, s.queues) && Estimate(s.jobs, s.queues, x)
    ensures var t := InsertJob(s, id, priority, submit); Estimate(t.jobs, t.queues, x)
  {
    PlaceMembers(InsertJob(s, id, priority, submit).jobs, s.queues.provisional, id);
    assert Copies(s.queues, x) <= 1;
  }

  lemma PassEstimate(s: State, p: Params, x: Id)
    requires Estimate(s.jobs, s.queues, x)
    ensures var t := NextMatch(Begin(s), p).0; Estimate(t.jobs, t.queues, x)
  {
    MergeMembers(s.jobs, s.queues.pending, s.queues.provisional, x);
    StopWaiting(Begin(s), p, x);
  }

  lemma AnswerEstimate(s: State, p: Params, o: Outcome, x: Id)
    requires AtJob(s) && Partition(s.jobs, s.queues) && Estimate(s.jobs, s.queues, x) && (o.Reserves? ==> o.at != 0)
    ensures var t := NextMatch(Apply(s, o), p).0; Estimate(t.jobs, t.queues, x)
  {
    ApplyEstimate(s, o, x);
    StopWaiting(Apply(s, o), p, x);
  }

  lemma StepEstimate(s: State, p: Params, e: Event, x: Id)
    requires Partition(s.jobs, s.queues) && Estimate(s.jobs, s.queues, x) && Fair(s, e)
    ensures Estimate(Step(s, p, e).0.jobs, Step(s, p, e).0.queues, x)
  {
    match e
    case Insert(id, priority, submit) => InsertEstimate(s, id, priority, submit, x);
    case Pass(_) => PassEstimate(s, p, x);
    case Reconsider => StopWaiting(s.(flags := s.flags.(reconsider := true)), p, x);
    case CancelLoop =>
    case ResetScheduled =>
    case _ =>
      StopWaiting(s, p, x);
      if Answer(s, e).Some? {
        AnswerEstimate(s, p, Answer(s, e).value, x);
      }
  }

  lemma StepEstimates(s: State, p: Params, e: Event)
    requires Partition(s.jobs, s.queues) && Estimates(s) && Fair(s, e)
    ensures Estimates(Step(s, p, e).0)
  {
    var t := Step(s, p, e).0;
    forall x
      ensures Estimate(t.jobs, t.queues, x)
    {
      assert Estimate(s.jobs, s.queues, x);
      StepEstimate(s, p, e, x);
    }
  }

  /** A job loses its start estimate only with the flag that makes the loss known, and only by a busy answer. */
  lemma LostEstimateIsFlagged(s: State, p: Params, e: Event, x: Id)
    requires x in s.jobs && s.jobs[x].at != 0 && Step(s, p, e).0.jobs[x].at == 0
    requires !(e.Success? && e.at == 0)
    ensures e == Failure(Busy) && AtJob(s) && x == Current(s) && Step(s, p, e).0.flags.dirty
  {
    var o := Answer(s, e);
    if (e.Success? || e.Failure?) && o.Some? {
      var t := Apply(s, o.value);
      assert NextMatch(t, p).0.jobs == t.jobs && NextMatch(t, p).0.flags.dirty == t.flags.dirty;
    }
  }

  // ----- Every run

  ghost predicate Valid(s: State, p: Params) {
    InOrder(s) && LoopOk(s.queues, s.loop, p) && Estimates(s)
  }

  /** What holds of an empty queue holds after every run of inserts, passes, answers and cancellations. */
  lemma {:induction false} RunValid(s: State, p: Params, es: seq<Event>)
    requires Valid(s, p) && FairRun(s, p, es)
    ensures Valid(Run(s, p, es), p)
    decreases |es|
  {
    if es != [] {
      StepOrder(s, p, es[0]);
      StepLoop(s, p, es[0]);
      StepEstimates(s, p, es[0]);
      RunValid(Step(s, p, es[0]).0, p, es[1..]);
    }
  }

  const Empty := State(map[], Queues([], [], [], [], []), Loop(false, 0, 0, 0, false, []), Flags(false, false, false, false), 0)

  lemma EmptyValid(p: Params)
    ensures Valid(Empty, p)
  {
    assert Partition(Empty.jobs, Empty.queues);
  }

  // ----- Progress of a pass

  predicate NoPass(es: seq<Event>) {
    forall i :: 0 <= i < |es| ==> !es[i].Pass?
  }

  /** The part of the queue the cursor has not passed. */
  function Suffix(s: State): seq<Id> {
    if s.loop.cursor <= |s.queues.pending| then s.queues.pending[s.loop.cursor..] else []
  }

  lemma ApplyShrinks(s: State, o: Outcome)
    requires AtJob(s)
    ensures Suffix(Apply(s, o)) == Suffix(s)[1..]
  {
    var ps, c := s.queues.pending, s.loop.cursor;
    assert Drop(ps, c)[c..] == ps[c + 1..];
    assert ps[c..][1..] == ps[c + 1..];
  }

  lemma NextKeeps(s: State, p: Params)
    requires NextMatch(s, p).0.loop.active
    ensures Suffix(NextMatch(s, p).0) == Suffix(s)
  {}

  /** An answered match takes exactly one job, the one it answers, off the part of the queue still ahead. */
  lemma AnswerShrinks(s: State, p: Params, e: Event)
    requires Answer(s, e).Some? && Step(s, p, e).0.loop.active
    ensures Suffix(s) == [Current(s)] + Suffix(Step(s, p, e).0)
  {
    ApplyShrinks(s, Answer(s, e).value);
    NextKeeps(Apply(s, Answer(s, e).value), p);
  }

  function Ahead(s: State): nat {
    if s.loop.active then |Suffix(s)| else 0
  }

  /** How many answers may still count in this pass; one match is outstanding even after a cancel. */
  function Budget(s: State, p: Params): nat {
    if !s.loop.active then 0
    else if s.loop.scheduledCnt < p.queueDepth then p.queueDepth - s.loop.scheduledCnt
    else 1
  }

  /** The answers of a run, and those among them that do not block their job. */
  function Answered(s: State, p: Params, es: seq<Event>): nat
    decreases |es|
  {
    if es == [] then 0
    else (if Answer(s, es[0]).Some? then 1 else 0) + Answered(Step(s, p, es[0]).0, p, es[1..])
  }

  function Counted(s: State, p: Params, es: seq<Event>): nat
    decreases |es|
  {
    if es == [] then 0
    else (if Answer(s, es[0]).Some? && !Answer(s, es[0]).value.Blocks? then 1 else 0) + Counted(Step(s, p, es[0]).0, p, es[1..])
  }

  lemma StepAhead(s: State, p: Params, e: Event)
    requires !e.Pass?
    ensures Ahead(Step(s, p, e).0) + (if Answer(s, e).Some? then 1 else 0) <= Ahead(s)
  {
    if Answer(s, e).Some? && Step(s, p, e).0.loop.active {
      AnswerShrinks(s, p, e);
    }
  }

  lemma StepBudget(s: State, p: Params, e: Event)
    requires !e.Pass?
    ensures Budget(Step(s, p, e).0, p) + (if Answer(s, e).Some? && !Answer(s, e).value.Blocks? then 1 else 0) <= Budget(s, p)
  {}

  /** However it is answered, a pass gets at most as many answers as jobs are ahead of it, and within its budget. */
  lemma {:induction false} PassBounds(s: State, p: Params, es: seq<Event>)
    requires NoPass(es)
    ensures Answered(s, p, es) <= Ahead(s) && Counted(s, p, es) <= Budget(s, p)
    decreases |es|
  {
    if es != [] {
      StepAhead(s, p, es[0]);
      StepBudget(s, p, es[0]);
      PassBounds(Step(s, p, es[0]).0, p, es[1..]);
    }
  }

  /** The jobs that the answers of a run are about, in order. */
  function AnsweredJobs(s: State, p: Params, es: seq<Event>): seq<Id>
    decreases |es|
  {
    if es == [] then []
    else (if Answer(s, es[0]).Some? then [Current(s)] else []) + AnsweredJobs(Step(s, p, es[0]).0, p, es[1..])
  }

  /** The jobs a pass still has ahead of it. */
  function Front(s: State): seq<Id> {
    if s.loop.active then Suffix(s) else []
  }

  lemma StepFront(s: State, p: Params, e: Event)
    requires !e.Pass?
    ensures (if Answer(s, e).Some? then [Current(s)] else []) + Front(Step(s, p, e).0) <= Front(s)
  {
    if Answer(s, e).Some? {
      assert Suffix(s)[0] == Current(s);
      if Step(s, p, e).0.loop.active {
        AnswerShrinks(s, p, e);
      }
    }
  }

  lemma PrefixTwice(a: seq<Id>, b: seq<Id>, c: seq<Id>, d: seq<Id>)
    requires b <= c && a + c <= d
    ensures a + b <= d
  {}

  /** A pass answers the jobs ahead of it from the front, each once. */
  lemma {:induction false} AnsweredFromFront(s: State, p: Params, es: seq<Event>)
    requires NoPass(es)
    ensures AnsweredJobs(s, p, es) <= Front(s)
    decreases |es|
  {
    if es != [] {
      var t := Step(s, p, es[0]).0;
      AnsweredFromFront(t, p, es[1..]);
      StepFront(s, p, es[0]);
      var now := if Answer(s, es[0]).Some? then [Current(s)] else [];
      PrefixTwice(now, AnsweredJobs(t, p, es[1..]), Front(t), Front(s));
    }
  }

  /** However it is answered, a pass counts at most `queueDepth` answers, and what it answers is the front of the
      merged queue, so that no job is answered twice. */
  lemma PassStartBounds(s: State, p: Params, es: seq<Event>)
    requires !s.loop.active && NoPass(es)
    ensures var t := Step(s, p, Pass(true)).0;
            && Counted(t, p, es) <= p.queueDepth
            && Answered(t, p, es) <= |s.queues.pending| + |s.queues.provisional|
            && AnsweredJobs(t, p, es) <= Merge(s.jobs, s.queues.pending, s.queues.provisional)
            && (InOrder(s) ==> Sorted(s.jobs, AnsweredJobs(t, p, es)))
  {
    var t := Step(s, p, Pass(true)).0;
    PassBounds(t, p, es);
    AnsweredFromFront(t, p, es);
    MergeLength(s.jobs, s.queues.pending, s.queues.provisional);
    if InOrder(s) {
      BeginOrder(s);
    }
  }

  /** The matches a run issues. */
  function Requests(s: State, p: Params, es: seq<Event>): seq<Request>
    decreases |es|
  {
    if es == [] then []
    else
      var r := Step(s, p, es[0]);
      (if r.1.Some? then [r.1.value] else []) + Requests(r.0, p, es[1..])
  }

  predicate Ending(s: State, p: Params) {
    s.loop.active ==> s.loop.scheduledCnt >= p.queueDepth
  }

  lemma {:induction false} EndingIssuesNothing(s: State, p: Params, es: seq<Event>)
    requires Ending(s, p) && NoPass(es)
    ensures Requests(s, p, es) == [] && Answered(s, p, es) <= 1
    decreases |es|
  {
    if es != [] {
      var t := Step(s, p, es[0]);
      assert Ending(t.0, p) && t.1.None?;
      EndingIssuesNothing(t.0, p, es[1..]);
      if Answer(s, es[0]).Some? {
        assert !t.0.loop.active;
        IdleIsNotAnswered(t.0, p, es[1..]);
      }
    }
  }

  lemma {:induction false} IdleIsNotAnswered(s: State, p: Params, es: seq<Event>)
    requires !s.loop.active && NoPass(es)
    ensures Answered(s, p, es) == 0
    decreases |es|
  {
    if es != [] {
      IdleIsNotAnswered(Step(s, p, es[0]).0, p, es[1..]);
    }
  }

  /** After cancel_sched_loop no match is issued until the next pass, and at most one answer still arrives. */
  lemma CancelStops(s: State, p: Params, es: seq<Event>)
    requires NoPass(es)
    ensures var c := Step(s, p, CancelLoop).0; Requests(c, p, es) == [] && Answered(c, p, es) <= 1
  {
    EndingIssuesNothing(Step(s, p, CancelLoop).0, p, es);
  }

  // ----- Labels

  /** The jobs that the answers of a run reserved, in order. */
  function ReservedIn(s: State, p: Params, es: seq<Event>): seq<Id>
    decreases |es|
  {
    if es == [] then []
    else
      var o := Answer(s, es[0]);
      (if o.Some? && o.value.Reserves? then [Current(s)] else []) + ReservedIn(Step(s, p, es[0]).0, p, es[1..])
  }

  lemma {:induction false} ReservedHistory(s: State, p: Params, es: seq<Event>)
    requires NoPass(es)
    ensures Run(s, p, es).loop.reserved == s.loop.reserved + ReservedIn(s, p, es)
    decreases |es|
  {
    if es != [] {
      var t := Step(s, p, es[0]).0;
      var now := if Answer(s, es[0]).Some? && Answer(s, es[0]).value.Reserves? then [Current(s)] else [];
      StepReserved(s, p, es[0]);
      ReservedHistory(t, p, es[1..]);
      Joined(s.loop.reserved, now, ReservedIn(t, p, es[1..]));
    }
  }

  lemma Joined(a: seq<Id>, b: seq<Id>, c: seq<Id>)
    ensures a + b + c == a + (b + c)
  {}

  lemma StepReserved(s: State, p: Params, e: Event)
    requires !e.Pass?
    ensures var o := Answer(s, e);
            Step(s, p, e).0.loop.reserved == s.loop.reserved + if o.Some? && o.value.Reserves? then [Current(s)] else []
  {
    if Answer(s, e).Some? {
      assert Apply(s, Answer(s, e).value).loop.reserved ==
             s.loop.reserved + if Answer(s, e).value.Reserves? then [Current(s)] else [];
    }
  }

  /**
   * A job started in a pass is labelled by what happened in that pass: reserved if it once held a
   * reservation it never lost, backfill if some job before it in the queue was reserved in this
   * pass, immediate if none was.
   */
  lemma LabelMeaning(s: State, p: Params, es: seq<Event>, e: Event)
    requires Valid(s, p) && !s.loop.active && NoPass(es)
    requires var t0 := Step(s, p, Pass(true)).0;
             && FairRun(t0, p, es)
             && Answer(Run(t0, p, es), e).Some? && Answer(Run(t0, p, es), e).value.Starts?
    ensures var t0 := Step(s, p, Pass(true)).0;
            var t := Run(t0, p, es);
            var id := Current(t);
            var how := Apply(t, Answer(t, e).value).jobs[id].selection;
            && (how == Reserved <==> t.jobs[id].at != 0)
            && (how == Backfilled <==> t.jobs[id].at == 0 && ReservedIn(t0, p, es) != [])
            && (how == Immediate <==> t.jobs[id].at == 0 && ReservedIn(t0, p, es) == [])
            && forall k :: 0 <= k < |ReservedIn(t0, p, es)| ==> Before(t.jobs, ReservedIn(t0, p, es)[k], id)
  {
    var t0 := Step(s, p, Pass(true)).0;
    var t := Run(t0, p, es);
    StartsPass(s, p, es);
    RunValid(s, p, [Pass(true)] + es);
    ReservedHistory(t0, p, es);
    assert t.loop.reserved == ReservedIn(t0, p, es);
    assert Estimate(t.jobs, t.queues, Current(t));
    forall k | 0 <= k < |t.loop.reserved|
      ensures Before(t.jobs, t.loop.reserved[k], Current(t))
    {
      assert t.loop.reserved[k] in t.queues.pending[..t.loop.cursor];
    }
  }

  lemma StartsPass(s: State, p: Params, es: seq<Event>)
    requires !s.loop.active && FairRun(Step(s, p, Pass(true)).0, p, es)
    ensures Run(s, p, [Pass(true)] + es) == Run(Step(s, p, Pass(true)).0, p, es)
    ensures FairRun(s, p, [Pass(true)] + es) && Step(s, p, Pass(true)).0.loop.reserved == []
  {
    assert ([Pass(true)] + es)[1..] == es;
  }

  // ----- The policy object

  /** queue_policy_bf_base_t: each method changes the fields as `Step` changes their snapshot. */
  class BackfillPolicy {
    const params: Params
    var jobs: map<Id, Job>
    var queues: Queues
    var loop: Loop
    var flags: Flags
    var pqCnt: nat

    constructor (params: Params)
      ensures this.params == params && Snapshot() == Empty && Valid(Snapshot(), params)
    {
      this.params := params;
      jobs, queues, loop, flags, pqCnt := Empty.jobs, Empty.queues, Empty.loop, Empty.flags, 0;
      new;
      EmptyValid(params);
    }

    function Snapshot(): State
      reads this
    {
      State(jobs, queues, loop, flags, pqCnt)
    }

    method Insert(id: Id, priority: nat, submit: real) returns (ok: bool)
      modifies this
      ensures Snapshot() == Step(old(Snapshot()), params, Event.Insert(id, priority, submit)).0
      ensures ok <==> id !in old(jobs)
    {
      if id in jobs {
        return false;
      }
      jobs := jobs[id := Job(Key(priority, submit, pqCnt), 0, 0, false, false, Unknown, "")];
      pqCnt := pqCnt + 1;
      queues := queues.(provisional := Place(jobs, queues.provisional, id));
      flags := flags.(schedulable := true);
      ok := true;
    }

    method ProcessProvisionalReconsider()
      modifies this
      ensures Snapshot() == Unblock(old(Snapshot()))
    {
      if !flags.reconsider {
        return;
      }
      flags := flags.(reconsider := false);
      var cnt := |queues.blocked|;
      queues := queues.(pending := Merge(jobs, queues.pending, queues.blocked));
      queues := queues.(blocked := []);
      if cnt > 0 {
        flags := flags.(schedulable := true);
      }
    }

    method ReconsiderBlockedJobs()
      modifies this
      ensures Snapshot() == Step(old(Snapshot()), params, Event.Reconsider).0
    {
      flags := flags.(reconsider := true);
      if !loop.active {
        ProcessProvisionalReconsider();
      }
    }

    /** set_sched_loop_active (false) */
    method DeactivateLoop()
      modifies this
      ensures Snapshot() == Stop(old(Snapshot()))
    {
      var prev := loop.active;
      loop := loop.(active := false);
      if prev {
        ProcessProvisionalReconsider();
      }
    }

    method NextMatchIter() returns (request: Option<Request>)
      modifies this
      ensures (Snapshot(), request) == NextMatch(old(Snapshot()), params)
    {
      var reachedDepth := loop.scheduledCnt >= params.queueDepth;
      var reachedEnd := loop.cursor >= |queues.pending|;
      if reachedEnd || reachedDepth {
        DeactivateLoop();
        if reachedDepth && !reachedEnd && flags.scheduled {
          flags := flags.(schedulable := true);
        }
        return None;
      }
      loop := loop.(tryReserve := loop.reservationCnt < params.reservationDepth);
      request := Some(Request(queues.pending[loop.cursor], loop.tryReserve));
    }

    /** run_sched_loop; `cancelOk` says whether the old reservations could be cancelled. */
    method RunSchedLoop(cancelOk: bool) returns (request: Option<Request>)
      modifies this
      ensures (Snapshot(), request) == Step(old(Snapshot()), params, Pass(cancelOk))
    {
      if loop.active {
        return None;
      }
      flags := flags.(schedulable := false);
      loop := loop.(reserved := []);
      if !cancelOk {
        return None;
      }
      queues := queues.(pending := Merge(jobs, queues.pending, queues.provisional));
      queues := queues.(provisional := []);
      loop := loop.(cursor := 0, reservationCnt := 0, scheduledCnt := 0);
      loop := loop.(active := true);
      request := NextMatchIter();
    }

    method CancelSchedLoop() returns (rc: int)
      modifies this
      ensures Snapshot() == Step(old(Snapshot()), params, CancelLoop).0
      ensures rc == 0 <==> !old(loop.active)
    {
      if !loop.active {
        return 0;
      }
      loop := loop.(scheduledCnt := params.queueDepth);
      rc := -1;
    }

    method MarkReserved(at: int)
      requires AtJob(Snapshot())
      modifies this
      ensures Snapshot() == Apply(old(Snapshot()), Reserves(at))
    {
      var id := queues.pending[loop.cursor];
      var job := jobs[id];
      job := job.(reserved := true, oldAt := job.at, at := at);
      jobs := jobs[id := job.(wasReserved := true, selection := Reserved)];
      loop := loop.(reserved := loop.reserved + [id], reservationCnt := loop.reservationCnt + 1);
      loop := loop.(cursor := loop.cursor + 1);
      flags := flags.(scheduled := true);
      loop := loop.(scheduledCnt := loop.scheduledCnt + 1);
    }

    method ToRunning(at: int)
      requires AtJob(Snapshot())
      modifies this
      ensures Snapshot() == Apply(old(Snapshot()), Starts(at))
    {
      var id := queues.pending[loop.cursor];
      var job := jobs[id];
      job := job.(reserved := false, oldAt := job.at, at := at);
      if job.wasReserved {
        job := job.(selection := Reserved);
      } else if loop.reservationCnt > 0 {
        job := job.(selection := Backfilled);
      } else {
        job := job.(selection := Immediate);
      }
      jobs := jobs[id := job];
      queues := queues.(running := queues.running + [id]);
      flags := flags.(scheduled := true);
      queues := queues.(pending := Drop(queues.pending, loop.cursor));
      loop := loop.(scheduledCnt := loop.scheduledCnt + 1);
    }

    method ToRejected(note: string)
      requires AtJob(Snapshot())
      modifies this
      ensures Snapshot() == Apply(old(Snapshot()), Rejects(note))
    {
      var id := queues.pending[loop.cursor];
      jobs := jobs[id := jobs[id].(note := note)];
      queues := queues.(rejected := queues.rejected + [id]);
      flags := flags.(scheduled := true);
      queues := queues.(pending := Drop(queues.pending, loop.cursor));
      loop := loop.(scheduledCnt := loop.scheduledCnt + 1);
    }

    /** A busy answer: the estimate goes, and the job is passed over or blocked. */
    method PassOver()
      requires AtJob(Snapshot())
      modifies this
      ensures Snapshot() == Apply(old(Snapshot()), if old(loop.tryReserve) then Blocks else Skips)
    {
      var id := queues.pending[loop.cursor];
      if jobs[id].at != 0 {
        jobs := jobs[id := jobs[id].(at := 0, selection := Unknown, wasReserved := false)];
        flags := flags.(dirty := true);
      }
      assert jobs == old(jobs)[id := jobs[id]];
      if loop.tryReserve {
        queues := queues.(blocked := Place(jobs, queues.blocked, id), pending := Drop(queues.pending, loop.cursor));
      } else {
        loop := loop.(cursor := loop.cursor + 1, scheduledCnt := loop.scheduledCnt + 1);
      }
    }

    /** The answer with a resource set, as match_allocate_multi_cont hands it on. */
    method HandleMatchSuccess(jobid: Id, isReserved: bool, at: int) returns (request: Option<Request>)
      requires loop.active ==> AtJob(Snapshot())
      modifies this
      ensures (Snapshot(), request) == Step(old(Snapshot()), params, Success(jobid, isReserved, at))
    {
      if !loop.active || queues.pending[loop.cursor] != jobid {
        DeactivateLoop();
        return None;
      }
      if isReserved {
        MarkReserved(at);
      } else {
        ToRunning(at);
      }
      request := NextMatchIter();
    }

    method HandleMatchFailure(error: Error) returns (request: Option<Request>)
      requires loop.active ==> AtJob(Snapshot())
      modifies this
      ensures (Snapshot(), request) == Step(old(Snapshot()), params, Failure(error))
    {
      if !loop.active || error == NoData {
        return None;
      }
      if error != Busy {
        ToRejected(if error == NoDev then "unsatisfiable" else "match error");
      } else {
        PassOver();
      }
      request := NextMatchIter();
    }
  }
}
