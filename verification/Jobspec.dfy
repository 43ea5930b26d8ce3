/** The part of a jobspec resource that slot packing reads, and how many units it asks for
    (resource/policies/base/matcher.cpp). */
module Jobspec {

  /** A request for `min` to `max` units of a type in steps of `operand` (the '+' operator).
      Resource types are interned: a type is a number. */
  datatype Elem = Elem(rtype: nat, min: nat, max: nat, operand: nat)

  /** matcher_util_api_t::calc_count for the '+' operator. */
  function CalcCount(e: Elem, qc: nat): (count: nat)
    requires e.operand >= 1
    ensures count <= qc
    ensures e.min == e.max ==> count == if e.min <= qc then e.min else 0
  {
    if e.min > e.max || e.min > qc then 0
    else
      var count := if qc < e.max then qc else e.max;
      RestIsLess(count - e.min, e.operand);
      count - (count - e.min) % e.operand
  }

  lemma RestIsLess(x: nat, m: nat)
    requires m >= 1
    ensures x % m <= x
  {
    if x >= m {
      assert x % m < m;
    }
  }

  ghost predicate KnownShape(shape: seq<Elem>, types: nat) {
    forall k :: 0 <= k < |shape| ==> shape[k].operand >= 1 && shape[k].rtype < types
  }

  /** Siblings of one slot have distinct, known types. */
  ghost predicate ValidShape(shape: seq<Elem>, types: nat) {
    && KnownShape(shape, types)
    && forall i, j :: 0 <= i < j < |shape| ==> shape[i].rtype != shape[j].rtype
  }

  /** Every request is for one positive amount. */
  ghost predicate FixedShape(shape: seq<Elem>) {
    forall e <- shape :: e.min == e.max >= 1
  }
}
