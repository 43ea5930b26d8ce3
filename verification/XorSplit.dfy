/** Expansion of xor_slot alternatives into plain requests, with its hard cap
    (resource/traversers/dfu_flexible.cpp). */
module XorSplit {
  import opened Common

  datatype Kind = Plain(name: string) | Slot | XorSlot

  /** One jobspec resource. `spec` stands for every attribute the expansion copies untouched
      (counts, label, exclusivity). */
  datatype Resource = Resource(kind: Kind, spec: int, with: seq<Resource>)

  /** detail::SYSTEM_MAX_XOR_EXPANSION */
  const MAX_EXPANSION: nat := 1000

  // ----- Reference semantics: what a resolved request is

  predicate HasXor(rs: seq<Resource>) {
    exists r <- rs :: r.kind.XorSlot?
  }

  /** `out` keeps every required sibling of `rs`, in order and resolved below, and, when there are
      xor_slot siblings, appends exactly one of them turned into a plain slot. */
  ghost predicate Resolves(rs: seq<Resource>, out: seq<Resource>)
    decreases rs, 2
  {
    if !HasXor(rs) then KeepsRequired(rs, out)
    else out != [] && KeepsRequired(rs, out[..|out| - 1]) && TakesOneAlternative(rs, out[|out| - 1])
  }

  ghost predicate KeepsRequired(rs: seq<Resource>, out: seq<Resource>)
    decreases rs, 1
  {
    if rs == [] then out == []
    else if rs[|rs| - 1].kind.XorSlot? then KeepsRequired(rs[..|rs| - 1], out)
    else
      && out != []
      && KeepsRequired(rs[..|rs| - 1], out[..|out| - 1])
      && ResolvesOne(rs[|rs| - 1], out[|out| - 1])
  }

  ghost predicate TakesOneAlternative(rs: seq<Resource>, o: Resource)
    decreases rs, 1
  {
    exists a <- rs :: a.kind.XorSlot? && ResolvesOne(a, o)
  }

  /** `o` is `r` with everything below it resolved. */
  ghost predicate ResolvesOne(r: Resource, o: Resource)
    decreases r, 0
  {
    o.kind == ResolvedKind(r.kind) && o.spec == r.spec && Resolves(r.with, o.with)
  }

  function ResolvedKind(k: Kind): Kind {
    if k.XorSlot? then Slot else k
  }

  ghost predicate NoXor(rs: seq<Resource>) {
    forall r <- rs :: !r.kind.XorSlot? && NoXor(r.with)
  }

  /** The size of the full expansion: the product over required siblings times the sum over
      xor siblings, recursively. */
  function Count(rs: seq<Resource>): (n: nat)
    ensures n >= 1
    decreases rs, 1
  {
    if !HasXor(rs) then BaseCount(rs)
    else BaseCount(rs) * OptionCount(rs)
  }

  function BaseCount(rs: seq<Resource>): (n: nat)
    ensures n >= 1
    decreases rs, 0
  {
    if rs == [] then 1
    else
      var last := rs[|rs| - 1];
      BaseCount(rs[..|rs| - 1]) * (if last.kind.XorSlot? then 1 else Count(last.with))
  }

  function OptionCount(rs: seq<Resource>): (n: nat)
    ensures n == 0 <==> !HasXor(rs)
    decreases rs, 0
  {
    if rs == [] then 0
    else
      var last := rs[|rs| - 1];
      OptionCount(rs[..|rs| - 1]) + (if last.kind.XorSlot? then Count(last.with) else 0)
  }

  // ----- The expansion without the cap, in the order the code produces it

  /** Every variant of `base` extended by every option, row by row. */
  function Cross(base: seq<seq<Resource>>, options: seq<Resource>): (out: seq<seq<Resource>>)
    ensures |out| == |base| * |options|
  {
    if base == [] then []
    else Cross(base[..|base| - 1], options) + Row(base[|base| - 1], options)
  }

  function Row(variant: seq<Resource>, options: seq<Resource>): (out: seq<seq<Resource>>)
    ensures |out| == |options|
  {
    seq(|options|, j requires 0 <= j < |options| => variant + [options[j]])
  }

  function Expand(rs: seq<Resource>): (out: seq<seq<Resource>>)
    ensures |out| == Count(rs)
    decreases rs, 2
  {
    if !HasXor(rs) then Base(rs) else Cross(Base(rs), Options(rs))
  }

  function Base(rs: seq<Resource>): (out: seq<seq<Resource>>)
    ensures |out| == BaseCount(rs)
    decreases rs, 1
  {
    if rs == [] then [[]]
    else
      var last := rs[|rs| - 1];
      if last.kind.XorSlot? then Base(rs[..|rs| - 1])
      else Cross(Base(rs[..|rs| - 1]), Variants(last))
  }

  function Options(rs: seq<Resource>): (out: seq<Resource>)
    ensures |out| == OptionCount(rs)
    decreases rs, 1
  {
    if rs == [] then []
    else
      var last := rs[|rs| - 1];
      Options(rs[..|rs| - 1]) + (if last.kind.XorSlot? then Variants(last) else [])
  }

  function Variants(r: Resource): (out: seq<Resource>)
    ensures |out| == Count(r.with)
    decreases r, 0
  {
    Rebuild(r, Expand(r.with))
  }

  function Rebuild(r: Resource, children: seq<seq<Resource>>): (out: seq<Resource>)
    ensures |out| == |children|
  {
    seq(|children|, j requires 0 <= j < |children| => Resource(ResolvedKind(r.kind), r.spec, children[j]))
  }

  /** What the code returns: the expansion, or nothing beyond the cap. */
  function Split(rs: seq<Resource>): seq<seq<Resource>> {
    if Count(rs) > MAX_EXPANSION then [] else Expand(rs)
  }

  // ----- The expansion as the code runs it, with the cap checked at every push

  method SplitXorSlots(rs: seq<Resource>) returns (out: seq<seq<Resource>>)
    ensures out == Split(rs)
    decreases rs
  {
    var base: seq<seq<Resource>> := [[]];
    var options: seq<Resource> := [];
    for n := 0 to |rs|
      invariant base == Base(rs[..n]) && options == Options(rs[..n])
      invariant |base| <= MAX_EXPANSION && |options| <= MAX_EXPANSION
    {
      PrefixStep(rs, n);
      CountBounds(rs, n);
      var children := SplitXorSlots(rs[n].with);
      if children == [] {
        return [];
      }
      var variants := Rebuild(rs[n], children);
      assert variants == Variants(rs[n]);
      if rs[n].kind.XorSlot? {
        options := PushCapped(options, variants);
        if options == [] {
          return [];
        }
      } else {
        MulGrows(|base|, |variants|);
        base := CrossCapped(base, variants);
        if base == [] {
          return [];
        }
      }
    }
    assert rs[..|rs|] == rs;
    if options == [] {
      return base;
    }
    out := CrossCapped(base, options);
  }

  /** Pushes the alternatives of one xor_slot. */
  method PushCapped(options: seq<Resource>, more: seq<Resource>) returns (out: seq<Resource>)
    requires |options| <= MAX_EXPANSION
    ensures out == if |options| + |more| > MAX_EXPANSION then [] else options + more
  {
    out := options;
    for j := 0 to |more|
      invariant out == options + more[..j] && |out| <= MAX_EXPANSION
    {
      out := out + [more[j]];
      if |out| > MAX_EXPANSION {
        return [];
      }
    }
  }

  /** The nested push loops shared by the sibling product and the final attachment. */
  method CrossCapped(base: seq<seq<Resource>>, options: seq<Resource>) returns (out: seq<seq<Resource>>)
    ensures out == if |base| * |options| > MAX_EXPANSION then [] else Cross(base, options)
  {
    out := [];
    for i := 0 to |base|
      invariant out == Cross(base[..i], options)
      invariant |out| <= MAX_EXPANSION
    {
      assert base[..i + 1][..i] == base[..i];
      var full;
      out, full := AddRow(out, base[i], options);
      if full {
        MoreRows(i, |base|, |options|);
        return [];
      }
    }
    assert base[..|base|] == base;
  }

  lemma {:induction false} MoreRows(i: nat, n: nat, m: nat)
    requires i < n
    ensures i * m + m <= n * m
    decreases n
  {
    assert n * m == (n - 1) * m + m;
    if i < n - 1 {
      MoreRows(i, n - 1, m);
    }
  }

  /** The inner loop: one base extended by every option, given up once the cap is passed. */
  method AddRow(sofar: seq<seq<Resource>>, b: seq<Resource>, options: seq<Resource>)
    returns (out: seq<seq<Resource>>, full: bool)
    requires |sofar| <= MAX_EXPANSION
    ensures full <==> |sofar| + |options| > MAX_EXPANSION
    ensures !full ==> out == sofar + Row(b, options)
  {
    out := sofar;
    for j := 0 to |options|
      invariant out == sofar + Row(b, options)[..j]
      invariant |out| <= MAX_EXPANSION
    {
      out := out + [b + [options[j]]];
      if |out| > MAX_EXPANSION {
        return out, true;
      }
    }
    full := false;
  }

  // ----- No early check can fire on a request whose full expansion is within the cap

  lemma MulGrows(a: nat, b: nat)
    requires b >= 1
    ensures a * b >= a
  {}

  lemma {:induction false} PrefixCounts(rs: seq<Resource>, n: nat)
    requires n <= |rs|
    ensures BaseCount(rs[..n]) <= BaseCount(rs)
    ensures OptionCount(rs[..n]) <= OptionCount(rs)
    decreases |rs|
  {
    if n == |rs| {
      assert rs[..n] == rs;
    } else {
      var init, last := rs[..|rs| - 1], rs[|rs| - 1];
      PrefixCounts(init, n);
      assert init[..n] == rs[..n];
      MulGrows(BaseCount(init), if last.kind.XorSlot? then 1 else Count(last.with));
    }
  }

  /** What the `n`-th sibling adds to the prefix before it. */
  lemma PrefixStep(rs: seq<Resource>, n: nat)
    requires n < |rs|
    ensures rs[n].kind.XorSlot? ==>
              && Base(rs[..n + 1]) == Base(rs[..n])
              && Options(rs[..n + 1]) == Options(rs[..n]) + Variants(rs[n])
    ensures !rs[n].kind.XorSlot? ==>
              && Base(rs[..n + 1]) == Cross(Base(rs[..n]), Variants(rs[n]))
              && Options(rs[..n + 1]) == Options(rs[..n])
  {
    var upto := rs[..n + 1];
    assert upto[..n] == rs[..n] && upto[n] == rs[n];
  }

  lemma CountParts(rs: seq<Resource>)
    ensures BaseCount(rs) <= Count(rs)
    ensures OptionCount(rs) <= Count(rs)
  {
    MulGrows(BaseCount(rs), if !HasXor(rs) then 1 else OptionCount(rs));
    MulGrows(OptionCount(rs), BaseCount(rs));
  }

  /** The counts reached after `n` siblings, and the count of the `n`-th sibling itself, are at
      most the count of the whole request. */
  lemma CountBounds(rs: seq<Resource>, n: nat)
    requires n < |rs|
    ensures |Variants(rs[n])| <= Count(rs)
    ensures |Base(rs[..n + 1])| <= Count(rs)
    ensures |Options(rs[..n + 1])| <= Count(rs)
  {
    PrefixStep(rs, n);
    PrefixCounts(rs, n + 1);
    CountParts(rs);
    MulGrows(|Variants(rs[n])|, |Base(rs[..n])|);
  }

  // ----- The expansion is exactly the set of resolved requests

  lemma {:induction false} CrossMembers(base: seq<seq<Resource>>, options: seq<Resource>, v: seq<Resource>)
    ensures v in Cross(base, options) <==>
            v != [] && v[..|v| - 1] in base && v[|v| - 1] in options
  {
    if base != [] {
      var init, last := base[..|base| - 1], base[|base| - 1];
      CrossMembers(init, options, v);
      assert forall x :: x in base <==> x in init || x == last;
      RowMembers(last, options, v);
    }
  }

  lemma RowMembers(variant: seq<Resource>, options: seq<Resource>, v: seq<Resource>)
    ensures v in Row(variant, options) <==>
            v != [] && v[..|v| - 1] == variant && v[|v| - 1] in options
  {
    var row := Row(variant, options);
    if v in row {
      var j :| 0 <= j < |row| && row[j] == v;
      assert v == variant + [options[j]];
    }
    if v != [] && v[..|v| - 1] == variant && v[|v| - 1] in options {
      var j :| 0 <= j < |options| && options[j] == v[|v| - 1];
      assert row[j] == v;
    }
  }

  lemma VariantsMembers(r: Resource, o: Resource)
    ensures o in Variants(r) <==> ResolvesOne(r, o)
    decreases r, 0
  {
    ExpandMeaning(r.with, o.with);
    var children, variants := Expand(r.with), Variants(r);
    if o in variants {
      var j :| 0 <= j < |variants| && variants[j] == o;
      assert o.with == children[j];
    }
    if ResolvesOne(r, o) {
      var j :| 0 <= j < |children| && children[j] == o.with;
      assert variants[j] == o;
    }
  }

  lemma {:induction false} BaseMembers(rs: seq<Resource>, v: seq<Resource>)
    ensures v in Base(rs) <==> KeepsRequired(rs, v)
    decreases rs, 1
  {
    if rs != [] {
      var init, last := rs[..|rs| - 1], rs[|rs| - 1];
      if last.kind.XorSlot? {
        BaseMembers(init, v);
      } else {
        CrossMembers(Base(init), Variants(last), v);
        if v != [] {
          BaseMembers(init, v[..|v| - 1]);
          VariantsMembers(last, v[|v| - 1]);
        }
      }
    }
  }

  lemma {:induction false} OptionsMembers(rs: seq<Resource>, o: Resource)
    ensures o in Options(rs) <==> TakesOneAlternative(rs, o)
    decreases rs, 1
  {
    if rs != [] {
      var init, last := rs[..|rs| - 1], rs[|rs| - 1];
      OptionsMembers(init, o);
      VariantsMembers(last, o);
      assert forall a :: a in rs <==> a in init || a == last;
    }
  }

  /** Meaning preservation: the expansion holds a request exactly when that request resolves the
      original one. */
  lemma {:induction false} ExpandMeaning(rs: seq<Resource>, out: seq<Resource>)
    ensures out in Expand(rs) <==> Resolves(rs, out)
    decreases rs, 2
  {
    if !HasXor(rs) {
      BaseMembers(rs, out);
    } else {
      CrossMembers(Base(rs), Options(rs), out);
      if out != [] {
        BaseMembers(rs, out[..|out| - 1]);
        OptionsMembers(rs, out[|out| - 1]);
      }
    }
  }

  lemma {:induction false} NoXorRemains(rs: seq<Resource>, out: seq<Resource>)
    requires Resolves(rs, out)
    ensures NoXor(out)
    decreases rs, 2
  {
    if !HasXor(rs) {
      NoXorKept(rs, out);
    } else {
      var init, last := out[..|out| - 1], out[|out| - 1];
      NoXorKept(rs, init);
      var a :| a in rs && a.kind.XorSlot? && ResolvesOne(a, last);
      NoXorRemains(a.with, last.with);
    }
  }

  lemma {:induction false} NoXorKept(rs: seq<Resource>, out: seq<Resource>)
    requires KeepsRequired(rs, out)
    ensures NoXor(out)
    decreases rs, 1
  {
    if rs != [] {
      var init, last := rs[..|rs| - 1], rs[|rs| - 1];
      if last.kind.XorSlot? {
        NoXorKept(init, out);
      } else {
        NoXorKept(init, out[..|out| - 1]);
        NoXorRemains(last.with, out[|out| - 1].with);
      }
    }
  }

  /** The whole promise about the code: within the cap the result lists exactly the resolved
      requests, none of which mentions xor_slot; beyond the cap it is empty. */
  lemma SplitMeaning(rs: seq<Resource>)
    ensures Split(rs) == [] <==> Count(rs) > MAX_EXPANSION
    ensures Count(rs) <= MAX_EXPANSION ==> |Split(rs)| == Count(rs)
    ensures Count(rs) <= MAX_EXPANSION ==> forall v :: v in Split(rs) <==> Resolves(rs, v)
    ensures forall v <- Split(rs) :: NoXor(v)
  {
    forall v
      ensures v in Expand(rs) <==> Resolves(rs, v)
    {
      ExpandMeaning(rs, v);
    }
    forall v | v in Split(rs)
      ensures NoXor(v)
    {
      NoXorRemains(rs, v);
    }
  }

  /** dfu_flexible_t::select: tries the variants in order and keeps the first one that matches.
      `matches` stands for dfu_impl_t::select on one variant. */
  method Select(rs: seq<Resource>, matches: seq<Resource> -> bool) returns (chosen: Option<seq<Resource>>)
    ensures chosen.Some? ==> Resolves(rs, chosen.value) && NoXor(chosen.value) && matches(chosen.value)
    ensures chosen.None? <==>
            Count(rs) > MAX_EXPANSION || forall v :: Resolves(rs, v) ==> !matches(v)
  {
    var variants := SplitXorSlots(rs);
    SplitMeaning(rs);
    for n := 0 to |variants|
      invariant forall i :: 0 <= i < n ==> !matches(variants[i])
    {
      if matches(variants[n]) {
        return Some(variants[n]);
      }
    }
    return None;
  }
}
