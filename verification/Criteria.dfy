/** Criteria expressions: predicates combined with `and`, `or` and parentheses
    (resource/evaluators/expr_eval_api.cpp). */
module Criteria {
  import opened Common

  datatype Op = And | Or

  /** What a criteria string means: terms combined from left to right. */
  datatype Expr = Expr(first: Term, rest: Rest)
  datatype Rest = End | More(op: Op, term: Term, tail: Rest)
  datatype Term = Leaf(key: string, value: string) | Group(expr: Expr)

  // ----- Scanning (std::string's find functions; the length of the string stands for npos)

  predicate IsWs(c: char) {
    c == ' ' || c == '\t'
  }

  function SkipWs(e: string, at: nat): (r: nat)
    requires at <= |e|
    ensures at <= r <= |e|
    ensures forall i :: at <= i < r ==> IsWs(e[i])
    ensures r < |e| ==> !IsWs(e[r])
    decreases |e| - at
  {
    if at < |e| && IsWs(e[at]) then SkipWs(e, at + 1) else at
  }

  function SkipToken(e: string, at: nat): (r: nat)
    requires at <= |e|
    ensures at <= r <= |e|
    ensures forall i :: at <= i < r ==> !IsWs(e[i])
    ensures r < |e| ==> IsWs(e[r])
    decreases |e| - at
  {
    if at < |e| && !IsWs(e[at]) then SkipToken(e, at + 1) else at
  }

  function FindParen(e: string, at: nat): (r: nat)
    requires at <= |e|
    ensures at <= r <= |e|
    ensures forall i :: at <= i < r ==> e[i] != '(' && e[i] != ')'
    ensures r < |e| ==> e[r] == '(' || e[r] == ')'
    decreases |e| - at
  {
    if at < |e| && e[at] != '(' && e[at] != ')' then FindParen(e, at + 1) else at
  }

  function FindEq(s: string, at: nat): (r: nat)
    requires at <= |s|
    ensures at <= r <= |s|
    ensures forall i :: at <= i < r ==> s[i] != '='
    ensures r < |s| ==> s[r] == '='
    decreases |s| - at
  {
    if at < |s| && s[at] != '=' then FindEq(s, at + 1) else at
  }

  /** The position after the parenthesis that closes `bal` open ones. */
  function Close(e: string, at: nat, bal: nat): (r: Option<nat>)
    requires at <= |e|
    ensures r.Some? ==> at + bal <= r.value <= |e| && (bal > 0 ==> e[r.value - 1] == ')')
    decreases |e| - at
  {
    if bal == 0 then Some(at)
    else if at == |e| then None
    else if e[at] == '(' then Close(e, at + 1, bal + 1)
    else if e[at] == ')' then Close(e, at + 1, bal - 1)
    else Close(e, at + 1, bal)
  }

  // ----- The grammar that all three walks follow

  datatype Parsed<T> = Parsed(value: T, next: nat)

  function ParseTerm(e: string, at: nat): (r: Option<Parsed<Term>>)
    requires at <= |e|
    ensures r.Some? ==> at < r.value.next <= |e|
    decreases |e|, 1
  {
    var tok := SkipWs(e, at);
    if tok == |e| then None
    else if e[tok] == '(' then ParseGroup(e, tok)
    else
      var end := SkipToken(e, tok);
      ParseLeaf(e[tok..end], end)
  }

  /** What is between the parenthesis at `tok` and the one that closes it is an expression. */
  function ParseGroup(e: string, tok: nat): (r: Option<Parsed<Term>>)
    requires tok < |e|
    ensures r.Some? ==> tok < r.value.next <= |e|
    decreases |e|, 0
  {
    match Close(e, tok + 1, 1)
    case None => None
    case Some(end) =>
      match ParseExpr(e[tok + 1..end - 1])
      case None => None
      case Some(x) => Some(Parsed(Group(x), end))
  }

  /** A predicate is split at its first '='. */
  function ParseLeaf(leaf: string, end: nat): (r: Option<Parsed<Term>>)
    ensures r.Some? ==> r.value.next == end
  {
    var eq := FindEq(leaf, 0);
    if eq == |leaf| then None else Some(Parsed(Leaf(leaf[..eq], leaf[eq + 1..]), end))
  }

  /** parse_pred_op: a token other than `and` and `or` is left in place and reads as `and`. */
  function ParseOp(e: string, at: nat): (r: Option<Parsed<Op>>)
    requires at < |e|
    ensures r.Some? ==> at <= r.value.next <= |e|
  {
    if !IsWs(e[at]) then None
    else
      var nws := SkipWs(e, at);
      if nws == |e| then None
      else
        var xws := SkipToken(e, nws);
        if e[nws..xws] == "and" then Some(Parsed(And, xws))
        else if e[nws..xws] == "or" then Some(Parsed(Or, xws))
        else Some(Parsed(And, at))
  }

  function ParseRest(e: string, at: nat): (r: Option<Rest>)
    requires at <= |e|
    decreases |e|, 2, |e| - at
  {
    if SkipWs(e, at) == |e| then Some(End)
    else
      match ParseOp(e, at)
      case None => None
      case Some(op) =>
        match ParseTerm(e, op.next)
        case None => None
        case Some(t) =>
          match ParseRest(e, t.next)
          case None => None
          case Some(rest) => Some(More(op.value, t.value, rest))
  }

  function ParseExpr(e: string): (r: Option<Expr>)
    decreases |e|, 3
  {
    match ParseTerm(e, 0)
    case None => None
    case Some(t) =>
      match ParseRest(e, t.next)
      case None => None
      case Some(rest) => Some(Expr(t.value, rest))
  }

  // ----- Meaning, relative to a target that judges single predicates

  /** expr_eval_target_base_t: None stands for a negative return code. */
  datatype Target = Target(validate: (string, string) -> bool,
                           evaluate: (string, string) -> Option<bool>,
                           extract: (string, string) -> Option<(string, string)>)

  function Apply(op: Op, a: bool, b: bool): bool {
    if op.And? then a && b else a || b
  }

  function EvalTerm(target: Target, t: Term): Option<bool>
    decreases t
  {
    match t
    case Leaf(k, v) => if target.validate(k, v) then target.evaluate(k, v) else None
    case Group(x) => EvalExpr(target, x)
  }

  /** A left fold: `and` and `or` bind equally. */
  function EvalExpr(target: Target, x: Expr): Option<bool>
    decreases x
  {
    match EvalTerm(target, x.first)
    case None => None
    case Some(b) => EvalRest(target, b, x.rest)
  }

  function EvalRest(target: Target, sofar: bool, rest: Rest): Option<bool>
    decreases rest
  {
    match rest
    case End => Some(sofar)
    case More(op, term, tail) =>
      match EvalTerm(target, term)
      case None => None
      case Some(b) => EvalRest(target, Apply(op, sofar, b), tail)
  }

  /** The predicates of an expression from left to right. */
  function Leaves(x: Expr): seq<(string, string)> {
    LeavesOfTerm(x.first) + LeavesOfRest(x.rest)
  }

  function LeavesOfTerm(t: Term): seq<(string, string)> {
    match t
    case Leaf(k, v) => [(k, v)]
    case Group(x) => Leaves(x)
  }

  function LeavesOfRest(rest: Rest): seq<(string, string)> {
    match rest
    case End => []
    case More(_, term, tail) => LeavesOfTerm(term) + LeavesOfRest(tail)
  }

  predicate ValidTerm(target: Target, t: Term) {
    match t
    case Leaf(k, v) => target.validate(k, v)
    case Group(x) => ValidTerm(target, x.first) && ValidRest(target, x.rest)
  }

  predicate ValidRest(target: Target, rest: Rest) {
    match rest
    case End => true
    case More(_, term, tail) => ValidTerm(target, term) && ValidRest(target, tail)
  }

  /** What extracting the predicates of a term gives, None if the target refuses one. */
  function ExtractTerm(target: Target, t: Term): Option<seq<(string, string)>> {
    match t
    case Leaf(k, v) => (match target.extract(k, v) case None => None case Some(p) => Some([p]))
    case Group(x) =>
      match ExtractTerm(target, x.first)
      case None => None
      case Some(ps) => Prepend(ps, ExtractRest(target, x.rest))
  }

  function ExtractRest(target: Target, rest: Rest): Option<seq<(string, string)>> {
    match rest
    case End => Some([])
    case More(_, term, tail) =>
      match ExtractTerm(target, term)
      case None => None
      case Some(ps) => Prepend(ps, ExtractRest(target, tail))
  }

  function Prepend(ps: seq<(string, string)>, more: Option<seq<(string, string)>>): Option<seq<(string, string)>> {
    match more
    case None => None
    case Some(qs) => Some(ps + qs)
  }

  // ----- What each walk computes on a string

  predicate Validates(target: Target, e: string) {
    ParseExpr(e).Some? && ValidTerm(target, Group(ParseExpr(e).value))
  }

  function Evaluates(target: Target, e: string): Option<bool> {
    match ParseExpr(e)
    case None => None
    case Some(x) => EvalExpr(target, x)
  }

  function Extracts(target: Target, e: string): Option<seq<(string, string)>> {
    match ParseExpr(e)
    case None => None
    case Some(x) => ExtractTerm(target, Group(x))
  }

  // ----- The walks as the code runs them

  /** find_last_not_of: None is npos, which is larger than every position. */
  function LastNotWs(e: string): (r: Option<nat>)
    ensures r.None? <==> forall i :: 0 <= i < |e| ==> IsWs(e[i])
    ensures r.Some? ==> r.value < |e| && !IsWs(e[r.value]) && forall i :: r.value < i < |e| ==> IsWs(e[i])
  {
    if e == [] then None
    else if !IsWs(e[|e| - 1]) then Some(|e| - 1)
    else LastNotWs(e[..|e| - 1])
  }

  /** The loop condition of the three walks. */
  predicate MoreToParse(e: string, at: nat) {
    LastNotWs(e).None? || at <= LastNotWs(e).value
  }

  lemma {:induction false} CloseSkips(e: string, from: nat, to: nat, bal: nat)
    requires from <= to <= |e| && bal > 0
    requires forall i :: from <= i < to ==> e[i] != '(' && e[i] != ')'
    ensures Close(e, from, bal) == Close(e, to, bal)
    decreases |e| - from
  {
    if from < to {
      CloseSkips(e, from + 1, to, bal);
    }
  }

  method FindClosingParen(e: string, at: nat) returns (r: Option<nat>)
    requires at <= |e|
    ensures r == if SkipWs(e, at) == |e| then None else Close(e, SkipWs(e, at) + 1, 1)
  {
    var pa := SkipWs(e, at);
    if pa == |e| {
      return None;
    }
    var bal: nat := 1;
    pa := pa + 1;
    while bal != 0
      invariant pa <= |e|
      invariant Close(e, pa, bal) == Close(e, SkipWs(e, at) + 1, 1)
      decreases |e| - pa, bal
    {
      var q := FindParen(e, pa);
      CloseSkips(e, pa, q, bal);
      if q == |e| {
        return None;
      }
      bal := if e[q] == ')' then bal - 1 else bal + 1;
      pa := q + 1;
    }
    return Some(pa);
  }

  lemma MoreMeansToken(e: string, at: nat)
    requires at <= |e| && LastNotWs(e).Some?
    ensures MoreToParse(e, at) <==> SkipWs(e, at) < |e|
  {}

  /** parse_expr_paren: the text between the parentheses, and the position after them. */
  method ParseExprParen(e: string, at: nat) returns (inner: Option<Parsed<string>>)
    requires at < |e| && e[at] == '('
    ensures match Close(e, at + 1, 1)
            case None => inner == None
            case Some(end) => inner == Some(Parsed(e[at + 1..end - 1], end))
  {
    var end := FindClosingParen(e, at);
    assert SkipWs(e, at) == at;
    inner := if end.None? then None else Some(Parsed(e[at + 1..end.value - 1], end.value));
  }

  /** Splits a predicate at its first '='. */
  method SplitLeaf(leaf: string) returns (kv: Option<(string, string)>)
    ensures var eq := FindEq(leaf, 0);
            kv == if eq == |leaf| then None else Some((leaf[..eq], leaf[eq + 1..]))
  {
    var eq := FindEq(leaf, 0);
    kv := if eq == |leaf| then None else Some((leaf[..eq], leaf[eq + 1..]));
  }

  method ValidateParen(e: string, target: Target, at: nat) returns (ok: bool, next: nat)
    requires at <= |e|
    ensures ok <==> ParseTerm(e, at).Some? && ValidTerm(target, ParseTerm(e, at).value.value)
    ensures ok ==> next == ParseTerm(e, at).value.next
    decreases |e|, 0
  {
    next := at;
    var tok := SkipWs(e, at);
    if tok == |e| {
      return false, at;
    }
    if e[tok] != '(' {
      next := SkipToken(e, tok);
      var kv := SplitLeaf(e[tok..next]);
      ok := kv.Some? && target.validate(kv.value.0, kv.value.1);
    } else {
      var inner := ParseExprParen(e, tok);
      if inner.None? {
        return false, at;
      }
      next := inner.value.next;
      ok := Validate(inner.value.value, target);
    }
  }

  /** validate: every part of the string is a well-formed expression and every predicate valid. */
  method Validate(e: string, target: Target) returns (ok: bool)
    ensures ok <==> Validates(target, e)
    decreases |e|, 1
  {
    var next;
    ok, next := ValidateParen(e, target, 0);
    if !ok {
      return;
    }
    var at := next;
    while MoreToParse(e, at)
      invariant at <= |e| && LastNotWs(e).Some?
      invariant Validates(target, e) <==> ParseRest(e, at).Some? && ValidRest(target, ParseRest(e, at).value)
      decreases |e| - at
    {
      MoreMeansToken(e, at);
      var op := ParseOp(e, at);
      if op.None? {
        return false;
      }
      at := op.value.next;
      ok, next := ValidateParen(e, target, at);
      if !ok {
        return;
      }
      at := next;
    }
    MoreMeansToken(e, at);
    ok := true;
  }

  method EvaluateParen(e: string, target: Target, at: nat)
    returns (result: Option<bool>, next: nat, ghost consulted: seq<(string, string)>)
    requires at <= |e|
    ensures result == match ParseTerm(e, at)
                      case None => None
                      case Some(t) => EvalTerm(target, t.value)
    ensures result.Some? ==> next == ParseTerm(e, at).value.next
    ensures result.Some? ==> consulted == LeavesOfTerm(ParseTerm(e, at).value.value)
    decreases |e|, 0
  {
    next, consulted := at, [];
    var tok := SkipWs(e, at);
    if tok == |e| {
      return None, at, [];
    }
    if e[tok] != '(' {
      next := SkipToken(e, tok);
      var kv := SplitLeaf(e[tok..next]);
      if kv.None? || !target.validate(kv.value.0, kv.value.1) {
        return None, at, [];
      }
      consulted := [kv.value];
      result := target.evaluate(kv.value.0, kv.value.1);
    } else {
      var inner := ParseExprParen(e, tok);
      if inner.None? {
        return None, at, [];
      }
      next := inner.value.next;
      result, consulted := Evaluate(inner.value.value, target);
    }
  }

  /** evaluate: folds the terms from left to right. `consulted` lists the predicates that the
      target was asked to evaluate. */
  method Evaluate(e: string, target: Target) returns (result: Option<bool>, ghost consulted: seq<(string, string)>)
    ensures result == Evaluates(target, e)
    ensures result.Some? ==> consulted == Leaves(ParseExpr(e).value)
    decreases |e|, 1
  {
    var next;
    result, next, consulted := EvaluateParen(e, target, 0);
    if result.None? {
      return;
    }
    var result1 := result.value;
    var at := next;
    while MoreToParse(e, at)
      invariant at <= |e| && LastNotWs(e).Some?
      invariant Evaluates(target, e) == EvalFrom(target, e, at, result1)
      invariant ConsultedTo(e, at, consulted)
      decreases |e| - at
    {
      MoreMeansToken(e, at);
      EvalFromStep(target, e, at, result1);
      var op := ParseOp(e, at);
      if op.None? {
        return None, consulted;
      }
      ghost var more;
      result, next, more := EvaluateParen(e, target, op.value.next);
      if result.None? {
        return;
      }
      ConsultMore(e, at, op.value, ParseTerm(e, op.value.next).value, consulted);
      result1 := Apply(op.value.value, result1, result.value);
      consulted := consulted + more;
      at := next;
    }
    MoreMeansToken(e, at);
    assert consulted + [] == consulted;
    result := Some(result1);
  }

  ghost function EvalFrom(target: Target, e: string, at: nat, sofar: bool): Option<bool>
    requires at <= |e|
  {
    match ParseRest(e, at)
    case None => None
    case Some(rest) => EvalRest(target, sofar, rest)
  }

  lemma EvalFromStep(target: Target, e: string, at: nat, sofar: bool)
    requires at <= |e| && SkipWs(e, at) < |e|
    ensures EvalFrom(target, e, at, sofar) ==
            match ParseOp(e, at)
            case None => None
            case Some(op) =>
              match ParseTerm(e, op.next)
              case None => None
              case Some(t) =>
                match EvalTerm(target, t.value)
                case None => None
                case Some(b) => EvalFrom(target, e, t.next, Apply(op.value, sofar, b))
  {}

  /** What was consulted before `at`, with what is still to come, are the predicates of the whole string. */
  ghost predicate ConsultedTo(e: string, at: nat, consulted: seq<(string, string)>)
    requires at <= |e|
  {
    ParseRest(e, at).Some? ==>
      ParseExpr(e).Some? && consulted + LeavesOfRest(ParseRest(e, at).value) == Leaves(ParseExpr(e).value)
  }

  lemma RestStep(e: string, at: nat, op: Parsed<Op>, t: Parsed<Term>, tail: Rest)
    requires at < |e| && SkipWs(e, at) < |e| && op.next <= |e| && t.next <= |e|
    requires ParseOp(e, at) == Some(op) && ParseTerm(e, op.next) == Some(t) && ParseRest(e, t.next) == Some(tail)
    ensures ParseRest(e, at) == Some(More(op.value, t.value, tail))
  {}

  lemma ConsultMore(e: string, at: nat, op: Parsed<Op>, t: Parsed<Term>, consulted: seq<(string, string)>)
    requires at < |e| && SkipWs(e, at) < |e| && op.next <= |e| && t.next <= |e| && ConsultedTo(e, at, consulted)
    requires ParseOp(e, at) == Some(op) && ParseTerm(e, op.next) == Some(t)
    ensures ConsultedTo(e, t.next, consulted + LeavesOfTerm(t.value))
  {
    var tail, more := ParseRest(e, t.next), LeavesOfTerm(t.value);
    if tail.Some? {
      RestStep(e, at, op, t, tail.value);
      LeavesMore(consulted, op.value, t.value, tail.value);
    }
  }

  lemma LeavesMore(consulted: seq<(string, string)>, op: Op, t: Term, tail: Rest)
    ensures consulted + LeavesOfRest(More(op, t, tail)) == consulted + LeavesOfTerm(t) + LeavesOfRest(tail)
  {}

  method ExtractParen(e: string, target: Target, at: nat) returns (found: Option<seq<(string, string)>>, next: nat)
    requires at <= |e|
    ensures found == match ParseTerm(e, at)
                     case None => None
                     case Some(t) => ExtractTerm(target, t.value)
    ensures found.Some? ==> next == ParseTerm(e, at).value.next
    decreases |e|, 0
  {
    next := at;
    var tok := SkipWs(e, at);
    if tok == |e| {
      return None, at;
    }
    if e[tok] != '(' {
      next := SkipToken(e, tok);
      var kv := SplitLeaf(e[tok..next]);
      if kv.None? {
        return None, at;
      }
      var p := target.extract(kv.value.0, kv.value.1);
      found := if p.None? then None else Some([p.value]);
    } else {
      var inner := ParseExprParen(e, tok);
      if inner.None? {
        return None, at;
      }
      next := inner.value.next;
      found := Extract(inner.value.value, target);
    }
  }

  /** extract: hands the predicates over in the order of the string. */
  method Extract(e: string, target: Target) returns (found: Option<seq<(string, string)>>)
    ensures found == Extracts(target, e)
    decreases |e|, 1
  {
    var next;
    found, next := ExtractParen(e, target, 0);
    if found.None? {
      return;
    }
    var predicates := found.value;
    var at := next;
    while MoreToParse(e, at)
      invariant at <= |e| && LastNotWs(e).Some?
      invariant Extracts(target, e) == Prepend(predicates, ExtractFrom(target, e, at))
      decreases |e| - at
    {
      MoreMeansToken(e, at);
      ExtractFromStep(target, e, at);
      var op := ParseOp(e, at);
      if op.None? {
        return None;
      }
      at := op.value.next;
      found, next := ExtractParen(e, target, at);
      if found.None? {
        return;
      }
      PrependTwice(predicates, found.value, ExtractFrom(target, e, next));
      predicates := predicates + found.value;
      at := next;
    }
    MoreMeansToken(e, at);
    assert predicates + [] == predicates;
    found := Some(predicates);
  }

  ghost function ExtractFrom(target: Target, e: string, at: nat): Option<seq<(string, string)>>
    requires at <= |e|
  {
    match ParseRest(e, at)
    case None => None
    case Some(rest) => ExtractRest(target, rest)
  }

  lemma ExtractFromStep(target: Target, e: string, at: nat)
    requires at <= |e| && SkipWs(e, at) < |e|
    ensures ExtractFrom(target, e, at) ==
            match ParseOp(e, at)
            case None => None
            case Some(op) =>
              match ParseTerm(e, op.next)
              case None => None
              case Some(t) =>
                match ExtractTerm(target, t.value)
                case None => None
                case Some(ps) => Prepend(ps, ExtractFrom(target, e, t.next))
  {}

  lemma PrependTwice(a: seq<(string, string)>, b: seq<(string, string)>, more: Option<seq<(string, string)>>)
    ensures Prepend(a, Prepend(b, more)) == Prepend(a + b, more)
  {
    assert more.Some? ==> a + (b + more.value) == a + b + more.value;
  }

  // ----- The three walks agree

  /** A target that can evaluate every predicate it finds valid. */
  ghost predicate EvaluatesValid(target: Target) {
    forall k, v :: target.validate(k, v) ==> target.evaluate(k, v).Some?
  }

  /** A target that can hand over every predicate it finds valid. */
  ghost predicate ExtractsValid(target: Target) {
    forall k, v :: target.validate(k, v) ==> target.extract(k, v).Some?
  }

  /** What the target hands over for a list of predicates. */
  ghost function Handed(target: Target, leaves: seq<(string, string)>): seq<(string, string)> {
    if leaves == [] then []
    else
      var last := leaves[|leaves| - 1];
      Handed(target, leaves[..|leaves| - 1]) +
      (match target.extract(last.0, last.1) case None => [] case Some(p) => [p])
  }

  lemma {:induction false} HandedAppend(target: Target, a: seq<(string, string)>, b: seq<(string, string)>)
    ensures Handed(target, a + b) == Handed(target, a) + Handed(target, b)
  {
    if b == [] {
      assert a + b == a;
    } else {
      assert (a + b)[..|a + b| - 1] == a + b[..|b| - 1];
      HandedAppend(target, a, b[..|b| - 1]);
    }
  }

  lemma {:induction false} TermEvaluates(target: Target, t: Term)
    requires EvaluatesValid(target)
    ensures ValidTerm(target, t) <==> EvalTerm(target, t).Some?
    decreases t
  {
    match t
    case Leaf(_, _) =>
    case Group(x) =>
      TermEvaluates(target, x.first);
      if ValidTerm(target, x.first) {
        RestEvaluates(target, EvalTerm(target, x.first).value, x.rest);
      }
  }

  lemma {:induction false} RestEvaluates(target: Target, sofar: bool, rest: Rest)
    requires EvaluatesValid(target)
    ensures ValidRest(target, rest) <==> EvalRest(target, sofar, rest).Some?
    decreases rest
  {
    match rest
    case End =>
    case More(op, term, tail) =>
      TermEvaluates(target, term);
      if ValidTerm(target, term) {
        RestEvaluates(target, Apply(op, sofar, EvalTerm(target, term).value), tail);
      }
  }

  lemma {:induction false} TermExtracts(target: Target, t: Term)
    requires ExtractsValid(target) && ValidTerm(target, t)
    ensures ExtractTerm(target, t) == Some(Handed(target, LeavesOfTerm(t)))
    decreases t
  {
    match t
    case Leaf(k, v) =>
      assert [(k, v)][..0] == [];
      assert Handed(target, [(k, v)]) == [target.extract(k, v).value];
    case Group(x) =>
      TermExtracts(target, x.first);
      RestExtracts(target, x.rest);
      HandedAppend(target, LeavesOfTerm(x.first), LeavesOfRest(x.rest));
  }

  lemma {:induction false} RestExtracts(target: Target, rest: Rest)
    requires ExtractsValid(target) && ValidRest(target, rest)
    ensures ExtractRest(target, rest) == Some(Handed(target, LeavesOfRest(rest)))
    decreases rest
  {
    match rest
    case End =>
    case More(op, term, tail) =>
      TermExtracts(target, term);
      RestExtracts(target, tail);
      HandedAppend(target, LeavesOfTerm(term), LeavesOfRest(tail));
  }

  /** For every string: validation succeeds exactly when evaluation does, and on an accepted string
      extraction hands over exactly the predicates that evaluation consults, from left to right. */
  lemma WalksAgree(target: Target, e: string)
    ensures EvaluatesValid(target) ==> (Validates(target, e) <==> Evaluates(target, e).Some?)
    ensures ExtractsValid(target) && Validates(target, e) ==>
              Extracts(target, e) == Some(Handed(target, Leaves(ParseExpr(e).value)))
  {
    if ParseExpr(e).Some? {
      var t := Group(ParseExpr(e).value);
      if EvaluatesValid(target) {
        TermEvaluates(target, t);
      }
      if ExtractsValid(target) && ValidTerm(target, t) {
        TermExtracts(target, t);
      }
    }
  }
}
