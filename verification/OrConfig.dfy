/** Choosing the best mix of or_slots: the memoised search and the replay of its table
    (resource/traversers/dfu_flexible.cpp). Resource types are interned, so a counts map over the
    types of one request is a sequence indexed by type. */
module OrConfig {
  import opened Common
  import opened Jobspec
  import opened SlotPacking

  datatype OrSlot = OrSlot(with: seq<Elem>)

  type Counts = seq<nat>

  /** One row of the table: counts left after the chosen slot, score, index of the chosen slot. */
  datatype Entry = Entry(next: Counts, score: nat, index: int)

  /** No alternative names a type twice, and of two or more each asks for something. OrTermination shows what the
      search does otherwise: an empty alternative keeps it from ever returning, and a type named twice can. */
  ghost predicate ValidSlots(slots: seq<OrSlot>, types: nat) {
    && (forall i :: 0 <= i < |slots| ==> ValidShape(slots[i].with, types))
    && (|slots| > 1 ==> forall i :: 0 <= i < |slots| ==> slots[i].with != [])
  }

  ghost predicate Fixed(slots: seq<OrSlot>) {
    forall i :: 0 <= i < |slots| ==> FixedShape(slots[i].with)
  }

  function Sum(s: seq<nat>): nat {
    if s == [] then 0 else s[0] + Sum(s[1..])
  }

  lemma {:induction false} SumUpdate(s: seq<nat>, i: nat, v: nat)
    requires i < |s|
    ensures Sum(s[i := v]) == Sum(s) - s[i] + v
  {
    if i > 0 {
      SumUpdate(s[1..], i - 1, v);
      assert s[i := v][1..] == s[1..][i - 1 := v];
    }
  }

  // ----- Taking one slot out of the counts

  /** The counts left after granting one slot, if every element of it can be granted. */
  function Take(with: seq<Elem>, counts: Counts): (left: Option<Counts>)
    requires ValidShape(with, |counts|)
    ensures left.Some? ==>
              && |left.value| == |counts|
              && Sum(left.value) + |with| <= Sum(counts)
              && (forall t :: 0 <= t < |counts| && (forall e <- with :: e.rtype != t) ==> left.value[t] == counts[t])
  {
    if with == [] then Some(counts)
    else
      var init, last := with[..|with| - 1], with[|with| - 1];
      assert forall e <- init :: e in with;
      match Take(init, counts)
      case None => None
      case Some(c) =>
        var q := CalcCount(last, counts[last.rtype]);
        if q == 0 then None
        else
          assert forall e <- init :: e.rtype != last.rtype;
          SumUpdate(c, last.rtype, c[last.rtype] - q);
          Some(c[last.rtype := c[last.rtype] - q])
  }

  // ----- The plain recursion the table memoises

  /** The score reached by granting each alternative first, -1 where it cannot be granted. */
  function Tests(slots: seq<OrSlot>, counts: Counts): (tests: seq<int>)
    requires ValidSlots(slots, |counts|) && |slots| != 1
    ensures |tests| == |slots|
    decreases Sum(counts), 0
  {
    seq(|slots|, i requires 0 <= i < |slots| =>
      match Take(slots[i].with, counts)
      case None => -1
      case Some(left) => Plan(slots, left).score)
  }

  /** The first of the highest non-negative values among the first `n`, or -1. */
  function Best(tests: seq<int>, n: nat): (b: int)
    requires n <= |tests|
    ensures -1 <= b < n
    ensures b >= 0 ==> tests[b] >= 0
  {
    if n == 0 then -1
    else
      var b := Best(tests, n - 1);
      if (if b < 0 then -1 else tests[b]) < tests[n - 1] then n - 1 else b
  }

  /** The table row for `counts`: the first slot that leaves the highest-scoring remainder. */
  function Plan(slots: seq<OrSlot>, counts: Counts): Entry
    requires ValidSlots(slots, |counts|) && |slots| != 1
    decreases Sum(counts), 1
  {
    PlanFrom(slots, counts, Tests(slots, counts), |slots|)
  }

  function PlanFrom(slots: seq<OrSlot>, counts: Counts, tests: seq<int>, n: nat): (e: Entry)
    requires ValidSlots(slots, |counts|) && n <= |tests| == |slots|
    requires forall i :: 0 <= i < |slots| ==> tests[i] >= -1 && (tests[i] >= 0 ==> Take(slots[i].with, counts).Some?)
  {
    var b := Best(tests, n);
    if b < 0 then Entry([], 0, -1)
    else Entry(Take(slots[b].with, counts).value, tests[b] + 1, b)
  }

  /** With a single alternative the score is computed directly, bounded by the requested slots. */
  function PlanSingle(slot: OrSlot, counts: Counts, nslots: nat): (e: Entry)
    requires ValidShape(slot.with, |counts|)
    ensures e.next == counts && e.index == 0
  {
    Entry(counts, SingleScore(slot.with, counts, nslots), 0)
  }

  function SingleScore(with: seq<Elem>, counts: Counts, nslots: nat): nat
    requires ValidShape(with, |counts|)
  {
    if with == [] then nslots
    else
      var init, last := with[..|with| - 1], with[|with| - 1];
      assert forall e <- init :: e in with;
      var count := CalcCount(last, counts[last.rtype]);
      var sofar := SingleScore(init, counts, nslots);
      if count == 0 then 0
      else if counts[last.rtype] / count < sofar then counts[last.rtype] / count
      else sofar
  }

  function Row(slots: seq<OrSlot>, counts: Counts, nslots: nat): Entry
    requires ValidSlots(slots, |counts|)
  {
    if |slots| == 1 then PlanSingle(slots[0], counts, nslots) else Plan(slots, counts)
  }

  // ----- The memoised search

  class OrTable {
    var rows: map<Counts, Entry>

    constructor ()
      ensures rows == map[]
    {
      rows := map[];
    }

    method SelectOrConfig(slots: seq<OrSlot>, counts: Counts, nslots: nat) returns (entry: Entry)
      requires ValidSlots(slots, |counts|)
      requires FinalUpTo(rows, slots, |counts|, nslots, Sum(counts))
      modifies this
      ensures FinalUpTo(rows, slots, |counts|, nslots, Sum(counts))
      ensures counts in rows && entry == rows[counts] == Row(slots, counts, nslots)
      ensures Extends(old(rows), rows, Sum(counts))
      decreases Sum(counts), 2
    {
      if counts in rows {
        return rows[counts];
      }
      if |slots| == 1 {
        var matches := CountSingle(slots[0].with, counts, nslots);
        CloseRow(rows, slots, counts, nslots, Entry(counts, matches, 0));
        rows := rows[counts := Entry(counts, matches, 0)];
      } else {
        TryEverySlot(slots, counts, nslots);
      }
      return rows[counts];
    }

    /** The loop over the alternatives. */
    method TryEverySlot(slots: seq<OrSlot>, counts: Counts, nslots: nat)
      requires ValidSlots(slots, |counts|) && |slots| != 1
      requires FinalUpTo(rows, slots, |counts|, nslots, Sum(counts)) && counts !in rows
      modifies this
      ensures FinalUpTo(rows, slots, |counts|, nslots, Sum(counts))
      ensures counts in rows && rows[counts] == Row(slots, counts, nslots)
      ensures Extends(old(rows), rows, Sum(counts))
      decreases Sum(counts), 1
    {
      ghost var plan := Entry([], 0, -1);
      var best: int := -1;
      PlanEnds(slots, counts, nslots);
      for n := 0 to |slots|
        invariant plan == PlanTo(slots, counts, n) && best == plan.score - 1
        invariant Searching(old(rows), rows, slots, counts, nslots, plan)
      {
        PlanStep(slots, counts, n);
        best := TryOneSlot(slots, counts, nslots, n, best, old(rows), plan);
        plan := PlanTo(slots, counts, n + 1);
      }
      AfterSearch(old(rows), rows, slots, counts, nslots, plan);
      if best < 0 {
        rows := rows[counts := Entry([], best + 1, -1)];
      }
    }

    /** One iteration: search the remainder of slot `n` and keep it if it beats the best so far. */
    method TryOneSlot(slots: seq<OrSlot>, counts: Counts, nslots: nat, n: nat, best: int,
                      ghost first: map<Counts, Entry>, ghost plan: Entry)
      returns (best': int)
      requires ValidSlots(slots, |counts|) && |slots| != 1 && n < |slots|
      requires best == plan.score - 1
      requires Searching(first, rows, slots, counts, nslots, plan)
      modifies this
      ensures best' == Improve(slots, counts, n, plan).score - 1
      ensures Searching(first, rows, slots, counts, nslots, Improve(slots, counts, n, plan))
      decreases Sum(counts), 0
    {
      best' := best;
      var left := TakeSlot(slots[n].with, counts);
      if left.Some? {
        ghost var before := rows;
        var test := SelectOrConfig(slots, left.value, nslots);
        StillSearching(first, before, rows, slots, counts, left.value, nslots, plan);
        if best < test.score {
          best' := test.score;
          BetterPlan(first, rows, slots, counts, nslots, plan, Entry(left.value, best' + 1, n));
          rows := rows[counts := Entry(left.value, best' + 1, n)];
        }
      }
    }
  }

  /** A final row holds the plain recursion's row and, when it grants a slot, leads to a row. */
  ghost predicate FinalRow(rows: map<Counts, Entry>, slots: seq<OrSlot>, k: Counts, nslots: nat)
    requires k in rows
    requires ValidSlots(slots, |k|)
  {
    && rows[k] == Row(slots, k, nslots)
    && (rows[k].score > 0 ==> rows[k].next in rows)
  }

  /** Every row of weight at most `w` is final. Heavier rows may still be in progress. */
  ghost predicate FinalUpTo(rows: map<Counts, Entry>, slots: seq<OrSlot>, types: nat, nslots: nat, w: nat)
    requires ValidSlots(slots, types)
  {
    forall k <- rows :: |k| == types && (Sum(k) <= w ==> FinalRow(rows, slots, k, nslots))
  }

  /** `after` adds rows to `before`, and touches no row heavier than `w`. */
  ghost predicate Extends(before: map<Counts, Entry>, after: map<Counts, Entry>, w: nat) {
    && before.Keys <= after.Keys
    && forall k <- after :: Sum(k) > w ==> k in before && after[k] == before[k]
  }

  /** Every row up to the weight of `counts`, other than its own, is final. */
  ghost predicate FinalBut(rows: map<Counts, Entry>, slots: seq<OrSlot>, counts: Counts, nslots: nat)
    requires ValidSlots(slots, |counts|)
  {
    forall k <- rows :: |k| == |counts| &&
      (Sum(k) <= Sum(counts) && k != counts ==> FinalRow(rows, slots, k, nslots))
  }

  /** The state of the search for `counts` with `best` found so far, started from the table `first`. */
  ghost predicate Searching(first: map<Counts, Entry>, rows: map<Counts, Entry>, slots: seq<OrSlot>, counts: Counts,
                            nslots: nat, best: Entry)
    requires ValidSlots(slots, |counts|)
  {
    && Extends(first, rows, Sum(counts))
    && FinalBut(rows, slots, counts, nslots)
    && (counts in rows <==> best.score > 0)
    && (counts in rows ==> rows[counts] == best && best.next in rows)
  }

  /** Searching a lighter remainder keeps every other final row final. */
  lemma StillFinal(first: map<Counts, Entry>, before: map<Counts, Entry>, after: map<Counts, Entry>,
                   slots: seq<OrSlot>, counts: Counts, left: Counts, nslots: nat)
    requires |left| == |counts| && ValidSlots(slots, |counts|) && Sum(left) < Sum(counts)
    requires Extends(first, before, Sum(counts)) && FinalBut(before, slots, counts, nslots)
    requires Extends(before, after, Sum(left)) && FinalUpTo(after, slots, |counts|, nslots, Sum(left))
    ensures Extends(first, after, Sum(counts)) && FinalBut(after, slots, counts, nslots)
  {
    forall k <- after | Sum(k) <= Sum(counts) && k != counts
      ensures FinalRow(after, slots, k, nslots)
    {
      if Sum(k) > Sum(left) {
        assert FinalRow(before, slots, k, nslots);
      }
    }
  }

  /** What slot `n` does to the best plan so far. */
  ghost function Improve(slots: seq<OrSlot>, counts: Counts, n: nat, plan: Entry): Entry
    requires ValidSlots(slots, |counts|) && |slots| != 1 && n < |slots|
  {
    match Take(slots[n].with, counts)
    case None => plan
    case Some(left) =>
      var test := Plan(slots, left).score;
      if plan.score < test + 1 then Entry(left, test + 1, n) else plan
  }

  lemma PlanStep(slots: seq<OrSlot>, counts: Counts, n: nat)
    requires ValidSlots(slots, |counts|) && |slots| != 1 && n < |slots|
    ensures PlanTo(slots, counts, n + 1) == Improve(slots, counts, n, PlanTo(slots, counts, n))
  {}

  /** The best plan among the first `n` alternatives. */
  ghost function PlanTo(slots: seq<OrSlot>, counts: Counts, n: nat): Entry
    requires ValidSlots(slots, |counts|) && |slots| != 1 && n <= |slots|
  {
    PlanFrom(slots, counts, Tests(slots, counts), n)
  }

  lemma PlanEnds(slots: seq<OrSlot>, counts: Counts, nslots: nat)
    requires ValidSlots(slots, |counts|) && |slots| != 1
    ensures PlanTo(slots, counts, 0) == Entry([], 0, -1)
    ensures PlanTo(slots, counts, |slots|) == Row(slots, counts, nslots)
    ensures PlanTo(slots, counts, |slots|).score == 0 ==> PlanTo(slots, counts, |slots|) == Entry([], 0, -1)
  {}

  lemma ReplaceRow(rows: map<Counts, Entry>, slots: seq<OrSlot>, counts: Counts, nslots: nat, e: Entry)
    requires ValidSlots(slots, |counts|)
    requires FinalBut(rows, slots, counts, nslots)
    ensures FinalBut(rows[counts := e], slots, counts, nslots)
  {
    var after := rows[counts := e];
    forall k <- after | Sum(k) <= Sum(counts) && k != counts
      ensures FinalRow(after, slots, k, nslots)
    {
      assert FinalRow(rows, slots, k, nslots);
    }
  }

  lemma StillSearching(first: map<Counts, Entry>, before: map<Counts, Entry>, after: map<Counts, Entry>,
                       slots: seq<OrSlot>, counts: Counts, left: Counts, nslots: nat, plan: Entry)
    requires |left| == |counts| && ValidSlots(slots, |counts|) && Sum(left) < Sum(counts)
    requires Searching(first, before, slots, counts, nslots, plan)
    requires Extends(before, after, Sum(left)) && FinalUpTo(after, slots, |counts|, nslots, Sum(left))
    ensures Searching(first, after, slots, counts, nslots, plan)
  {
    StillFinal(first, before, after, slots, counts, left, nslots);
  }

  lemma BetterPlan(first: map<Counts, Entry>, rows: map<Counts, Entry>, slots: seq<OrSlot>, counts: Counts, nslots: nat,
                   plan: Entry, better: Entry)
    requires ValidSlots(slots, |counts|) && better.score > 0 && better.next in rows
    requires Searching(first, rows, slots, counts, nslots, plan)
    ensures Searching(first, rows[counts := better], slots, counts, nslots, better)
  {
    ReplaceRow(rows, slots, counts, nslots, better);
  }

  lemma CloseRow(rows: map<Counts, Entry>, slots: seq<OrSlot>, counts: Counts, nslots: nat, e: Entry)
    requires ValidSlots(slots, |counts|)
    requires FinalBut(rows, slots, counts, nslots)
    requires e == Row(slots, counts, nslots)
    requires e.score > 0 ==> e.next in rows || e.next == counts
    ensures FinalUpTo(rows[counts := e], slots, |counts|, nslots, Sum(counts))
  {
    ReplaceRow(rows, slots, counts, nslots, e);
  }

  lemma AfterSearch(first: map<Counts, Entry>, rows: map<Counts, Entry>, slots: seq<OrSlot>, counts: Counts, nslots: nat,
                    plan: Entry)
    requires ValidSlots(slots, |counts|) && plan == Row(slots, counts, nslots)
    requires plan.score == 0 ==> plan == Entry([], 0, -1)
    requires Searching(first, rows, slots, counts, nslots, plan)
    ensures var final := if counts in rows then rows else rows[counts := Entry([], 0, -1)];
            && FinalUpTo(final, slots, |counts|, nslots, Sum(counts))
            && final[counts] == Row(slots, counts, nslots)
            && Extends(first, final, Sum(counts))
  {
    CloseRow(rows, slots, counts, nslots, plan);
    if counts in rows {
      assert rows == rows[counts := plan];
    } else {
      OneMoreRow(first, rows, counts, plan);
    }
  }

  lemma OneMoreRow(first: map<Counts, Entry>, rows: map<Counts, Entry>, counts: Counts, e: Entry)
    requires Extends(first, rows, Sum(counts)) && counts !in rows
    ensures Extends(first, rows[counts := e], Sum(counts))
  {}

  method TakeSlot(with: seq<Elem>, counts: Counts) returns (left: Option<Counts>)
    requires ValidShape(with, |counts|)
    ensures left == Take(with, counts)
  {
    var updated := counts;
    for n := 0 to |with|
      invariant |updated| == |counts|
      invariant Take(with[..n], counts) == Some(updated)
    {
      assert with[..n + 1][..n] == with[..n];
      var q := CalcCount(with[n], counts[with[n].rtype]);
      if q == 0 {
        TakeNoneStays(with, counts, n + 1);
        return None;
      }
      updated := updated[with[n].rtype := updated[with[n].rtype] - q];
    }
    assert with[..|with|] == with;
    return Some(updated);
  }

  lemma {:induction false} TakeNoneStays(with: seq<Elem>, counts: Counts, n: nat)
    requires ValidShape(with, |counts|)
    requires n <= |with| && Take(with[..n], counts) == None
    ensures Take(with, counts) == None
    decreases |with|
  {
    if n == |with| {
      assert with[..n] == with;
    } else {
      var init := with[..|with| - 1];
      assert init[..n] == with[..n];
      TakeNoneStays(init, counts, n);
    }
  }

  method CountSingle(with: seq<Elem>, counts: Counts, nslots: nat) returns (matches: nat)
    requires ValidShape(with, |counts|)
    ensures matches == SingleScore(with, counts, nslots)
  {
    matches := nslots;
    for n := 0 to |with|
      invariant matches == SingleScore(with[..n], counts, nslots)
    {
      assert with[..n + 1][..n] == with[..n];
      var count := CalcCount(with[n], counts[with[n].rtype]);
      if count == 0 {
        SingleZeroStays(with, counts, nslots, n + 1);
        return 0;
      }
      var possible := counts[with[n].rtype] / count;
      if possible < matches {
        matches := possible;
      }
    }
    assert with[..|with|] == with;
  }

  lemma {:induction false} SingleZeroStays(with: seq<Elem>, counts: Counts, nslots: nat, n: nat)
    requires ValidShape(with, |counts|)
    requires n <= |with| && SingleScore(with[..n], counts, nslots) == 0
    ensures SingleScore(with, counts, nslots) == 0
    decreases |with|
  {
    if n == |with| {
      assert with[..n] == with;
    } else {
      var init := with[..|with| - 1];
      assert init[..n] == with[..n];
      SingleZeroStays(init, counts, nslots, n);
    }
  }

  // ----- Optimality: the score is the greatest number of slots, in any mix, that fits the counts

  function SlotDemand(with: seq<Elem>, t: nat): nat {
    if with == [] then 0
    else SlotDemand(with[..|with| - 1], t) + (if with[|with| - 1].rtype == t then with[|with| - 1].min else 0)
  }

  ghost predicate Indexes(mix: seq<nat>, slots: seq<OrSlot>) {
    forall k :: 0 <= k < |mix| ==> mix[k] < |slots|
  }

  /** A mix lists the chosen alternatives, one index per slot. */
  ghost function MixDemand(slots: seq<OrSlot>, mix: seq<nat>, t: nat): nat
    requires Indexes(mix, slots)
  {
    if mix == [] then 0 else SlotDemand(slots[mix[0]].with, t) + MixDemand(slots, mix[1..], t)
  }

  ghost predicate MixFits(slots: seq<OrSlot>, mix: seq<nat>, counts: Counts) {
    && Indexes(mix, slots)
    && forall t :: 0 <= t < |counts| ==> MixDemand(slots, mix, t) <= counts[t]
  }

  lemma {:induction false} NoDemand(with: seq<Elem>, t: nat)
    requires forall e <- with :: e.rtype != t
    ensures SlotDemand(with, t) == 0
  {
    if with != [] {
      NoDemand(with[..|with| - 1], t);
    }
  }

  /** With fixed requests a slot can be taken exactly when its demand is covered, and taking it
      subtracts that demand. */
  lemma {:induction false} TakeFixed(with: seq<Elem>, counts: Counts)
    requires ValidShape(with, |counts|) && FixedShape(with)
    ensures Take(with, counts).Some? <==> forall t :: 0 <= t < |counts| ==> SlotDemand(with, t) <= counts[t]
    ensures Take(with, counts).Some? ==>
              forall t :: 0 <= t < |counts| ==> Take(with, counts).value[t] == counts[t] - SlotDemand(with, t)
  {
    if with != [] {
      var init, last := with[..|with| - 1], with[|with| - 1];
      assert last in with && forall e <- init :: e in with;
      TakeFixed(init, counts);
      NoDemand(init, last.rtype);
      assert SlotDemand(with, last.rtype) == last.min;
    }
  }

  lemma {:induction false} BestIsHighest(tests: seq<int>, n: nat, i: nat)
    requires i < n <= |tests|
    ensures tests[i] <= if Best(tests, n) < 0 then -1 else tests[Best(tests, n)]
  {
    if i < n - 1 {
      BestIsHighest(tests, n - 1, i);
    }
  }

  /** A row that grants a slot grants a possible one, and leads to a row scoring one less. */
  lemma {:induction false} PlanLeads(slots: seq<OrSlot>, counts: Counts)
    requires ValidSlots(slots, |counts|) && |slots| != 1
    ensures var e := Plan(slots, counts);
            e.score > 0 ==>
              && 0 <= e.index < |slots|
              && Take(slots[e.index].with, counts) == Some(e.next)
              && Plan(slots, e.next).score == e.score - 1
  {
    var tests := Tests(slots, counts);
    var b := Best(tests, |slots|);
    assert b >= 0 ==> Take(slots[b].with, counts).Some?;
  }

  lemma PlanDominates(slots: seq<OrSlot>, counts: Counts, i: nat, left: Counts)
    requires ValidSlots(slots, |counts|) && |slots| != 1 && i < |slots|
    requires Take(slots[i].with, counts) == Some(left)
    ensures Plan(slots, counts).score > Plan(slots, left).score
  {
    var tests := Tests(slots, counts);
    assert tests[i] == Plan(slots, left).score;
    BestIsHighest(tests, |slots|, i);
  }

  lemma {:induction false} ScoreIsUpperBound(slots: seq<OrSlot>, counts: Counts, mix: seq<nat>)
    requires ValidSlots(slots, |counts|) && |slots| != 1 && Fixed(slots)
    requires MixFits(slots, mix, counts)
    ensures |mix| <= Plan(slots, counts).score
    decreases |mix|
  {
    if mix != [] {
      var with := slots[mix[0]].with;
      TakeFixed(with, counts);
      assert forall t :: 0 <= t < |counts| ==> SlotDemand(with, t) <= MixDemand(slots, mix, t);
      var left := Take(with, counts).value;
      ScoreIsUpperBound(slots, left, mix[1..]);
      PlanDominates(slots, counts, mix[0], left);
    }
  }

  lemma PrependFits(slots: seq<OrSlot>, i: nat, rest: seq<nat>, counts: Counts, left: Counts)
    requires ValidSlots(slots, |counts|) && Fixed(slots) && i < |slots|
    requires Take(slots[i].with, counts) == Some(left) && MixFits(slots, rest, left)
    ensures MixFits(slots, [i] + rest, counts)
  {
    TakeFixed(slots[i].with, counts);
    assert ([i] + rest)[1..] == rest;
  }

  lemma {:induction false} ScoreIsReached(slots: seq<OrSlot>, counts: Counts) returns (mix: seq<nat>)
    requires ValidSlots(slots, |counts|) && |slots| != 1 && Fixed(slots)
    ensures MixFits(slots, mix, counts) && |mix| == Plan(slots, counts).score
    decreases Sum(counts)
  {
    var e := Plan(slots, counts);
    if e.score == 0 {
      mix := [];
    } else {
      PlanLeads(slots, counts);
      var rest := ScoreIsReached(slots, e.next);
      mix := [e.index] + rest;
      PrependFits(slots, e.index, rest, counts, e.next);
    }
  }

  /** The memoised score is the greatest number of slots that fits, in any mix and order. */
  lemma {:induction false} ScoreIsOptimal(slots: seq<OrSlot>, counts: Counts, n: nat)
    requires ValidSlots(slots, |counts|) && |slots| != 1 && Fixed(slots)
    ensures n <= Plan(slots, counts).score <==> exists mix :: MixFits(slots, mix, counts) && |mix| == n
  {
    if n <= Plan(slots, counts).score {
      var best := ScoreIsReached(slots, counts);
      PrefixFits(slots, best, counts, n);
      assert MixFits(slots, best[..n], counts);
    }
    forall mix | MixFits(slots, mix, counts) && |mix| == n
      ensures n <= Plan(slots, counts).score
    {
      ScoreIsUpperBound(slots, counts, mix);
    }
  }

  lemma {:induction false} PrefixFits(slots: seq<OrSlot>, mix: seq<nat>, counts: Counts, n: nat)
    requires MixFits(slots, mix, counts) && n <= |mix|
    ensures MixFits(slots, mix[..n], counts)
  {
    forall t | 0 <= t < |counts|
      ensures MixDemand(slots, mix[..n], t) <= counts[t]
    {
      PrefixDemand(slots, mix, t, n);
    }
  }

  lemma {:induction false} PrefixDemand(slots: seq<OrSlot>, mix: seq<nat>, t: nat, n: nat)
    requires Indexes(mix, slots) && n <= |mix|
    ensures MixDemand(slots, mix[..n], t) <= MixDemand(slots, mix, t)
  {
    if n > 0 {
      PrefixDemand(slots, mix[1..], t, n - 1);
      assert mix[..n][1..] == mix[1..][..n - 1];
    }
  }

  /** The counts cover n slots of the shape. */
  ghost predicate Affords(with: seq<Elem>, counts: Counts, n: nat) {
    forall t :: 0 <= t < |counts| ==> n * SlotDemand(with, t) <= counts[t]
  }

  lemma AffordsLast(with: seq<Elem>, counts: Counts, n: nat)
    requires ValidShape(with, |counts|) && FixedShape(with) && with != []
    ensures var init, last := with[..|with| - 1], with[|with| - 1];
            last.rtype < |counts| && (Affords(with, counts, n) <==> Affords(init, counts, n) && n * last.min <= counts[last.rtype])
  {
    var init, last := with[..|with| - 1], with[|with| - 1];
    assert last in with;
    NoDemand(init, last.rtype);
    forall t | 0 <= t < |counts|
      ensures n * SlotDemand(with, t) == if t == last.rtype then n * last.min else n * SlotDemand(init, t)
    {}
    assert n * SlotDemand(init, last.rtype) == 0;
    assert n * SlotDemand(with, last.rtype) == n * last.min;
  }

  /** With one alternative the score counts how often it fits, never beyond the requested slots. */
  lemma {:induction false} SingleScoreIsOptimal(with: seq<Elem>, counts: Counts, nslots: nat, n: nat)
    requires ValidShape(with, |counts|) && FixedShape(with)
    ensures n <= SingleScore(with, counts, nslots) <==> n == 0 || (n <= nslots && Affords(with, counts, n))
  {
    if with == [] {
      assert forall t :: 0 <= t < |counts| ==> n * SlotDemand(with, t) == 0;
    } else {
      var init, last := with[..|with| - 1], with[|with| - 1];
      assert last in with && forall e <- init :: e in with;
      SingleScoreIsOptimal(init, counts, nslots, n);
      AffordsLast(with, counts, n);
      SingleStep(with, counts, nslots);
      CappedBound(n, SingleScore(init, counts, nslots), counts[last.rtype], last.min);
    }
  }

  /** What an element of fixed amount `c` leaves of a score when there are `q` units. */
  function Capped(sofar: nat, q: nat, c: nat): nat
    requires c >= 1
  {
    if c > q then 0 else if q / c < sofar then q / c else sofar
  }

  lemma SingleStep(with: seq<Elem>, counts: Counts, nslots: nat)
    requires ValidShape(with, |counts|) && FixedShape(with) && with != []
    ensures var init, last := with[..|with| - 1], with[|with| - 1];
            && last.min >= 1 && last.rtype < |counts| && ValidShape(init, |counts|)
            && SingleScore(with, counts, nslots)
               == Capped(SingleScore(init, counts, nslots), counts[last.rtype], last.min)
  {
    assert with[|with| - 1] in with;
  }

  lemma CappedBound(n: nat, sofar: nat, q: nat, c: nat)
    requires c >= 1
    ensures n <= Capped(sofar, q, c) <==> n == 0 || (n <= sofar && n * c <= q)
  {
    DivisionBound(n, q, c);
    if n >= 1 {
      assert n * c >= c;
    }
  }

  lemma DivisionBound(n: nat, q: nat, c: nat)
    requires c >= 1
    ensures n <= q / c <==> n * c <= q
  {
    if n <= q / c {
      assert n * c <= (q / c) * c <= q;
    } else {
      assert n * c >= (q / c + 1) * c > q;
    }
  }

  // ----- Replaying the table: dom_slot

  /** One granted slot: which alternative it is and the (type, egroup) pairs it was given. */
  datatype Built = Built(index: nat, edges: Edges)

  function Indices(built: seq<Built>): (mix: seq<nat>)
    ensures |mix| == |built| && forall i :: 0 <= i < |built| ==> mix[i] == built[i].index
  {
    seq(|built|, i requires 0 <= i < |built| => built[i].index)
  }

  /** Every egroup holds one unit, and every qualified unit has its egroup. */
  ghost predicate UnitGroups(sizes: seq<seq<nat>>, counts: Counts) {
    && |sizes| == |counts|
    && (forall t :: 0 <= t < |sizes| ==> counts[t] <= |sizes[t]|)
    && forall t, g :: 0 <= t < |sizes| && 0 <= g < |sizes[t]| ==> sizes[t][g] == 1
  }

  /** The egroups a slot is given when each holds one unit: for every element the next `min` ones. */
  ghost function UnitEdges(with: seq<Elem>, at: seq<nat>): Edges
    requires KnownShape(with, |at|)
  {
    if with == [] then []
    else
      var last := with[|with| - 1];
      UnitEdges(with[..|with| - 1], at) + Interval(last.rtype, at[last.rtype], at[last.rtype] + last.min)
  }

  lemma {:induction false} UnitBundle(sizes: seq<nat>, from: nat, c: nat)
    requires from + c <= |sizes| && forall g :: 0 <= g < |sizes| ==> sizes[g] == 1
    ensures BundleEnd(sizes, from, c) == Some(from + c)
    decreases c
  {
    if c > 0 {
      UnitBundle(sizes, from + 1, c - 1);
    }
  }

  ghost function PosOf(dfu: DfuSlot): (at: seq<nat>)
    requires dfu.Valid()
    reads dfu
    ensures |at| == |dfu.sizes| && forall t :: 0 <= t < |at| ==> at[t] == dfu.Pos(t)
  {
    seq(|dfu.sizes|, t requires 0 <= t < |dfu.sizes| && dfu.Valid() reads dfu => dfu.Pos(t))
  }

  ghost predicate HasRoom(with: seq<Elem>, at: seq<nat>, counts: Counts)
    requires |at| == |counts|
  {
    forall t :: 0 <= t < |counts| ==> at[t] + SlotDemand(with, t) <= counts[t]
  }

  /** The packing of one chosen alternative: for every element the next whole egroups. */
  method PackSlot(dfu: DfuSlot, with: seq<Elem>, counts: Counts) returns (ok: bool, edges: Edges)
    requires dfu.Valid() && |dfu.sizes| == |counts| && ValidShape(with, |counts|)
    modifies dfu
    ensures dfu.Valid()
    ensures UnitGroups(dfu.sizes, counts) && FixedShape(with) && HasRoom(with, old(PosOf(dfu)), counts) ==>
              && ok && edges == UnitEdges(with, old(PosOf(dfu)))
              && forall t :: 0 <= t < |counts| ==> dfu.Pos(t) == old(PosOf(dfu))[t] + SlotDemand(with, t)
  {
    ghost var at := PosOf(dfu);
    ghost var fits := UnitGroups(dfu.sizes, counts) && FixedShape(with) && HasRoom(with, at, counts);
    ok, edges := true, [];
    for n := 0 to |with|
      invariant dfu.Valid()
      invariant fits ==> ok && edges == UnitEdges(with[..n], at)
      invariant fits ==> forall t :: 0 <= t < |counts| ==> dfu.Pos(t) == at[t] + SlotDemand(with[..n], t)
    {
      var t := with[n].rtype;
      assert with[..n + 1][..n] == with[..n];
      if fits {
        DemandOfElem(with, n, at, counts);
        UnitBundle(dfu.sizes[t], at[t], with[n].min);
      }
      var more;
      ok, more := dfu.TakeBundle(t, CalcCount(with[n], counts[t]));
      if !ok {
        return;
      }
      edges := edges + more;
    }
    assert with[..|with|] == with;
  }

  lemma DemandOfElem(with: seq<Elem>, n: nat, at: seq<nat>, counts: Counts)
    requires ValidShape(with, |counts|) && FixedShape(with) && n < |with|
    requires |at| == |counts| && HasRoom(with, at, counts)
    ensures SlotDemand(with[..n], with[n].rtype) == 0
    ensures at[with[n].rtype] + with[n].min <= counts[with[n].rtype]
    ensures CalcCount(with[n], counts[with[n].rtype]) == with[n].min
  {
    var t := with[n].rtype;
    assert with[n] in with;
    NoDemand(with[..n], t);
    DemandPrefix(with, t, n + 1);
    assert with[..n + 1][..n] == with[..n];
  }

  lemma {:induction false} DemandPrefix(with: seq<Elem>, t: nat, n: nat)
    requires n <= |with|
    ensures SlotDemand(with[..n], t) <= SlotDemand(with, t)
  {
    if n == |with| {
      assert with[..n] == with;
    } else {
      DemandPrefix(with[..|with| - 1], t, n);
      assert with[..|with| - 1][..n] == with[..n];
    }
  }

  lemma {:induction false} MixDemandAppend(slots: seq<OrSlot>, mix: seq<nat>, i: nat, t: nat)
    requires Indexes(mix, slots) && i < |slots|
    ensures MixDemand(slots, mix + [i], t) == MixDemand(slots, mix, t) + SlotDemand(slots[i].with, t)
  {
    if mix != [] {
      MixDemandAppend(slots, mix[1..], i, t);
      assert (mix + [i])[1..] == mix[1..] + [i];
    }
  }

  /** Where every type stands when the slots of `mix` have been packed from unit egroups. */
  ghost function Standing(slots: seq<OrSlot>, mix: seq<nat>, types: nat): (at: seq<nat>)
    requires Indexes(mix, slots)
    ensures |at| == types && forall t :: 0 <= t < types ==> at[t] == MixDemand(slots, mix, t)
  {
    seq(types, t requires 0 <= t < types => MixDemand(slots, mix, t))
  }

  /** The granted slots are consecutive unit egroups: slot `i` starts where the slots before it end. */
  ghost predicate PackedInTurn(slots: seq<OrSlot>, built: seq<Built>, types: nat)
    requires ValidSlots(slots, types)
  {
    && Indexes(Indices(built), slots)
    && forall i :: 0 <= i < |built| ==>
         built[i].edges == UnitEdges(slots[built[i].index].with, Standing(slots, Indices(built[..i]), types))
  }

  /** After `i` of `total` slots the replay stands on a final row, `total - i` below the top. */
  ghost predicate Replaying(rows: map<Counts, Entry>, slots: seq<OrSlot>, counts: Counts, nslots: nat, key: Counts,
                            i: nat)
    requires ValidSlots(slots, |counts|)
  {
    && FinalUpTo(rows, slots, |counts|, nslots, Sum(counts))
    && key in rows && Sum(key) <= Sum(counts)
    && (if |slots| == 1 then key == counts else rows[key].score + i == Plan(slots, counts).score)
  }

  /** Following the stored keys for `score` steps always finds a row that grants a valid slot. */
  lemma ReplayStep(rows: map<Counts, Entry>, slots: seq<OrSlot>, counts: Counts, nslots: nat, key: Counts, i: nat)
    requires ValidSlots(slots, |counts|)
    requires Replaying(rows, slots, counts, nslots, key, i) && i < Row(slots, counts, nslots).score
    ensures 0 <= rows[key].index < |slots| && rows[key].next in rows
    ensures |slots| != 1 ==> Take(slots[rows[key].index].with, key) == Some(rows[key].next)
    ensures Replaying(rows, slots, counts, nslots, rows[key].next, i + 1)
  {
    assert FinalRow(rows, slots, key, nslots);
    if |slots| != 1 {
      PlanLeads(slots, key);
      assert FinalRow(rows, slots, rows[key].next, nslots);
    }
  }

  /** With several alternatives, what the slots of `mix` took and what is left make up the counts. */
  ghost predicate Remaining(slots: seq<OrSlot>, mix: seq<nat>, counts: Counts, key: Counts)
    requires Indexes(mix, slots)
  {
    |slots| != 1 ==> |key| == |counts| && forall t :: 0 <= t < |counts| ==> key[t] + MixDemand(slots, mix, t) == counts[t]
  }

  lemma NextHasRoom(slots: seq<OrSlot>, mix: seq<nat>, counts: Counts, nslots: nat, key: Counts, e: Entry)
    requires ValidSlots(slots, |counts|) && Fixed(slots) && Indexes(mix, slots) && |key| == |counts|
    requires 0 <= e.index < |slots|
    requires |mix| < Row(slots, counts, nslots).score && Remaining(slots, mix, counts, key)
    requires |slots| != 1 ==> Take(slots[e.index].with, key) == Some(e.next)
    ensures HasRoom(slots[e.index].with, Standing(slots, mix, |counts|), counts)
    ensures Remaining(slots, mix + [e.index], counts, e.next)
  {
    var with := slots[e.index].with;
    if |slots| == 1 {
      SingleScoreIsOptimal(with, counts, nslots, |mix| + 1);
      forall t | 0 <= t < |counts|
        ensures MixDemand(slots, mix, t) + SlotDemand(with, t) <= counts[t]
      {
        SingleMix(slots, mix, t);
        assert (|mix| + 1) * SlotDemand(with, t) == |mix| * SlotDemand(with, t) + SlotDemand(with, t);
      }
    } else {
      TakeFixed(with, key);
      forall t | 0 <= t < |counts|
        ensures MixDemand(slots, mix + [e.index], t) == MixDemand(slots, mix, t) + SlotDemand(with, t)
      {
        MixDemandAppend(slots, mix, e.index, t);
      }
    }
  }

  lemma {:induction false} SingleMix(slots: seq<OrSlot>, mix: seq<nat>, t: nat)
    requires |slots| == 1 && Indexes(mix, slots)
    ensures MixDemand(slots, mix, t) == |mix| * SlotDemand(slots[0].with, t)
  {
    if mix != [] {
      SingleMix(slots, mix[1..], t);
      assert |mix| * SlotDemand(slots[0].with, t)
          == (|mix| - 1) * SlotDemand(slots[0].with, t) + SlotDemand(slots[0].with, t);
    }
  }

  lemma BuiltMore(slots: seq<OrSlot>, built: seq<Built>, more: Built, types: nat)
    requires ValidSlots(slots, types) && PackedInTurn(slots, built, types)
    requires more.index < |slots|
    requires more.edges == UnitEdges(slots[more.index].with, Standing(slots, Indices(built), types))
    ensures PackedInTurn(slots, built + [more], types)
    ensures Indices(built + [more]) == Indices(built) + [more.index]
    ensures forall t :: 0 <= t < types ==>
              Standing(slots, Indices(built + [more]), types)[t]
              == Standing(slots, Indices(built), types)[t] + SlotDemand(slots[more.index].with, t)
  {
    var all := built + [more];
    assert Indices(all) == Indices(built) + [more.index];
    forall i | 0 <= i < |all|
      ensures all[i].edges == UnitEdges(slots[all[i].index].with, Standing(slots, Indices(all[..i]), types))
    {
      assert all[..i] == built[..i];
      assert built[..|built|] == built;
    }
    forall t | 0 <= t < types
      ensures MixDemand(slots, Indices(all), t) == MixDemand(slots, Indices(built), t) + SlotDemand(slots[more.index].with, t)
    {
      MixDemandAppend(slots, Indices(built), more.index, t);
    }
  }

  /** The unit case so far: slots packed in turn, cursors behind the last one, the rest in `key`. */
  ghost predicate UnitPacked(slots: seq<OrSlot>, out: seq<Built>, at: seq<nat>, counts: Counts, key: Counts)
    requires ValidSlots(slots, |counts|)
  {
    && PackedInTurn(slots, out, |counts|)
    && at == Standing(slots, Indices(out), |counts|)
    && Remaining(slots, Indices(out), counts, key)
  }

  lemma GrantKeeps(slots: seq<OrSlot>, out: seq<Built>, more: Built, at: seq<nat>, after: seq<nat>, counts: Counts,
                   key: Counts, next: Counts)
    requires ValidSlots(slots, |counts|) && UnitPacked(slots, out, at, counts, key)
    requires more.index < |slots| && more.edges == UnitEdges(slots[more.index].with, at)
    requires |after| == |counts| && Remaining(slots, Indices(out) + [more.index], counts, next)
    requires forall t :: 0 <= t < |counts| ==> after[t] == at[t] + SlotDemand(slots[more.index].with, t)
    ensures UnitPacked(slots, out + [more], after, counts, next)
  {
    BuiltMore(slots, out, more, |counts|);
    var standing := Standing(slots, Indices(out + [more]), |counts|);
    forall t | 0 <= t < |counts|
      ensures after[t] == standing[t]
    {}
    assert after == standing;
  }

  /** One step of the replay: packs the slot a row grants. */
  method GrantNext(dfu: DfuSlot, slots: seq<OrSlot>, counts: Counts, row: Entry, out: seq<Built>,
                   ghost nslots: nat, ghost key: Counts)
    returns (ok: bool, more: Built)
    requires dfu.Valid() && |dfu.sizes| == |counts| == |key|
    requires ValidSlots(slots, |counts|) && 0 <= row.index < |slots|
    requires |out| < Row(slots, counts, nslots).score
    requires |slots| != 1 ==> Take(slots[row.index].with, key) == Some(row.next)
    modifies dfu
    ensures dfu.Valid()
    ensures UnitGroups(dfu.sizes, counts) && Fixed(slots) && UnitPacked(slots, out, old(PosOf(dfu)), counts, key) ==>
              ok && UnitPacked(slots, out + [more], PosOf(dfu), counts, row.next)
  {
    ghost var at := PosOf(dfu);
    ghost var fits := UnitGroups(dfu.sizes, counts) && Fixed(slots) && UnitPacked(slots, out, at, counts, key);
    if fits {
      NextHasRoom(slots, Indices(out), counts, nslots, key, row);
    }
    var edges;
    ok, edges := PackSlot(dfu, slots[row.index].with, counts);
    more := Built(row.index, edges);
    if fits {
      GrantKeeps(slots, out, more, at, PosOf(dfu), counts, key, row.next);
    }
  }

  /** Where alternatives ask for something, a positive score means that something was found. */
  lemma ScoreNeedsGroups(slots: seq<OrSlot>, counts: Counts, sizes: seq<seq<nat>>, nslots: nat)
    requires ValidSlots(slots, |counts|) && UnitGroups(sizes, counts) && Fixed(slots) && Barren(sizes)
    requires forall i :: 0 <= i < |slots| ==> slots[i].with != []
    ensures Row(slots, counts, nslots).score == 0
  {
    forall i | 0 <= i < |slots|
      ensures Take(slots[i].with, counts).None?
    {
      assert slots[i].with[|slots[i].with| - 1] in slots[i].with;
    }
    if |slots| == 1 {
      assert slots[0].with[|slots[0].with| - 1] in slots[0].with;
    } else {
      var tests := Tests(slots, counts);
      assert forall i :: 0 <= i < |slots| ==> tests[i] == -1;
      assert Best(tests, |slots|) < 0;
    }
  }

  /** dom_slot: fails if the exploration found nothing; otherwise searches the best mix for the qualified counts,
      then replays the table row by row. */
  method DomSlotFlexible(slots: seq<OrSlot>, counts: Counts, sizes: seq<seq<nat>>, nslots: nat)
    returns (built: Option<seq<Built>>)
    requires ValidSlots(slots, |counts|) && |sizes| == |counts|
    ensures Barren(sizes) ==> built.None?
    ensures UnitGroups(sizes, counts) && Fixed(slots) ==>
              (built.Some? <==> !Barren(sizes) && Row(slots, counts, nslots).score > 0)
    ensures UnitGroups(sizes, counts) && Fixed(slots) && built.Some? ==>
              && |built.value| == Row(slots, counts, nslots).score
              && PackedInTurn(slots, built.value, |counts|)
  {
    if Barren(sizes) {
      return None;
    }
    var table := new OrTable();
    var current := table.SelectOrConfig(slots, counts, nslots);
    built := Replay(table.rows, current, slots, counts, sizes, nslots);
  }

  method Replay(rows: map<Counts, Entry>, first: Entry, slots: seq<OrSlot>, counts: Counts, sizes: seq<seq<nat>>,
                ghost nslots: nat)
    returns (built: Option<seq<Built>>)
    requires ValidSlots(slots, |counts|) && |sizes| == |counts|
    requires FinalUpTo(rows, slots, |counts|, nslots, Sum(counts))
    requires counts in rows && first == rows[counts] == Row(slots, counts, nslots)
    ensures UnitGroups(sizes, counts) && Fixed(slots) ==>
              (built.Some? <==> first.score > 0)
    ensures UnitGroups(sizes, counts) && Fixed(slots) && built.Some? ==>
              |built.value| == first.score && PackedInTurn(slots, built.value, |counts|)
  {
    var dfu := new DfuSlot(sizes);
    var current := first;
    var out: seq<Built> := [];
    ghost var fits := UnitGroups(sizes, counts) && Fixed(slots);
    ghost var key := counts;
    for i := 0 to first.score
      invariant dfu.Valid() && dfu.sizes == sizes && |out| == i
      invariant Replaying(rows, slots, counts, nslots, key, i) && current == rows[key]
      invariant fits ==> UnitPacked(slots, out, PosOf(dfu), counts, key)
    {
      ReplayStep(rows, slots, counts, nslots, key, i);
      var ok, more := GrantNext(dfu, slots, counts, current, out, nslots, key);
      if !ok {
        return None;
      }
      out := out + [more];
      key := current.next;
      current := rows[current.next];
    }
    if first.score == 0 {
      return None;
    }
    return Some(out);
  }
}
