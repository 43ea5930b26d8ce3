/** Which strings are criteria expressions, and what they mean: every accepted string is an expression written
    down with some spacing, and every expression written down is accepted
    (resource/evaluators/expr_eval_api.cpp). */
module CriteriaText {
  import opened Common
  import opened Criteria

  // ----- Printing: every way of writing an expression down reads back as that expression

  /** An expression with its spacing. A missing operator is written as a gap alone. */
  datatype Text = Text(lead: string, first: TermText, rest: RestText)
  datatype TermText = LeafText(key: string, value: string) | GroupText(inner: Text)
  datatype RestText = Trail(ws: string) | Next(gap: string, op: Option<Op>, gap2: string, term: TermText, tail: RestText)

  predicate AllWs(s: string) {
    forall i :: 0 <= i < |s| ==> IsWs(s[i])
  }

  /** Characters of a predicate: no blanks, no parentheses. */
  predicate Plain(s: string) {
    forall i :: 0 <= i < |s| ==> !IsWs(s[i]) && s[i] != '(' && s[i] != ')'
  }

  predicate WellSpaced(t: Text) {
    AllWs(t.lead) && WellSpacedTerm(t.first) && WellSpacedRest(t.rest)
  }

  predicate WellSpacedTerm(t: TermText) {
    match t
    case LeafText(k, v) => Plain(k) && Plain(v) && forall i :: 0 <= i < |k| ==> k[i] != '='
    case GroupText(inner) => WellSpaced(inner)
  }

  predicate WellSpacedRest(r: RestText) {
    match r
    case Trail(ws) => AllWs(ws)
    case Next(gap, op, gap2, term, tail) =>
      && AllWs(gap) && gap != "" && AllWs(gap2) && (gap2 == "" <==> op.None?)
      && WellSpacedTerm(term) && WellSpacedRest(tail)
  }

  function Print(t: Text): string {
    t.lead + PrintTerm(t.first) + PrintRest(t.rest)
  }

  function PrintTerm(t: TermText): (s: string)
    ensures s != ""
  {
    match t
    case LeafText(k, v) => k + "=" + v
    case GroupText(inner) => "(" + Print(inner) + ")"
  }

  function PrintRest(r: RestText): string {
    match r
    case Trail(ws) => ws
    case Next(gap, op, gap2, term, tail) => PrintGap(gap, op, gap2) + PrintTerm(term) + PrintRest(tail)
  }

  /** The operator of a link with the blanks around it. */
  function PrintGap(gap: string, op: Option<Op>, gap2: string): string {
    gap + PrintOp(op) + gap2
  }

  function PrintOp(op: Option<Op>): string {
    match op
    case None => ""
    case Some(And) => "and"
    case Some(Or) => "or"
  }

  /** After `w` the first closing parenthesis that is left over follows. */
  ghost predicate Closes(w: string) {
    ClosedAt(w + ")", 0, |w|)
  }

  /** The parenthesis at `close` closes one that was open before `a`. */
  ghost predicate ClosedAt(e: string, a: nat, close: nat) {
    a <= |e| && forall end {:trigger EndsAt(e, a, end)} :: end == close + 1 ==> EndsAt(e, a, end)
  }

  predicate EndsAt(e: string, a: nat, end: nat)
    requires a <= |e|
  {
    Close(e, a, 1) == Some(end)
  }

  /** A predicate without blanks that does not start with a parenthesis; others may stand anywhere in it. */
  predicate ReadableLeaf(k: string, v: string) {
    && (forall i :: 0 <= i < |k| ==> !IsWs(k[i]) && k[i] != '=')
    && (forall i :: 0 <= i < |v| ==> !IsWs(v[i]))
    && (k != "" ==> k[0] != '(')
  }

  /** The texts that can be read: a group has to end where its parenthesis is closed. */
  ghost predicate Readable(t: Text) {
    AllWs(t.lead) && ReadableTerm(t.first) && ReadableRest(t.rest)
  }

  ghost predicate ReadableTerm(t: TermText) {
    match t
    case LeafText(k, v) => ReadableLeaf(k, v)
    case GroupText(inner) => Readable(inner) && Closes(Print(inner))
  }

  ghost predicate ReadableRest(r: RestText) {
    match r
    case Trail(ws) => AllWs(ws)
    case Next(gap, op, gap2, term, tail) =>
      && AllWs(gap) && gap != "" && AllWs(gap2) && (gap2 == "" <==> op.None?)
      && ReadableTerm(term) && ReadableRest(tail)
  }

  /** The expression behind the text: a missing operator means `and`. */
  function Meaning(t: Text): Expr {
    Expr(TermMeaning(t.first), RestMeaning(t.rest))
  }

  function TermMeaning(t: TermText): Term {
    match t
    case LeafText(k, v) => Leaf(k, v)
    case GroupText(inner) => Group(Meaning(inner))
  }

  function RestMeaning(r: RestText): Rest {
    match r
    case Trail(_) => End
    case Next(_, op, _, term, tail) => More(if op == Some(Or) then Or else And, TermMeaning(term), RestMeaning(tail))
  }

  /** `w` stands in `e` at `at`. */
  ghost predicate At(e: string, at: nat, w: string) {
    at + |w| <= |e| && forall i {:trigger CharAt(e, at, w, i)} :: 0 <= i < |w| ==> CharAt(e, at, w, i)
  }

  ghost predicate CharAt(e: string, at: nat, w: string, i: nat)
    requires at + |w| <= |e| && i < |w|
  {
    e[at + i] == w[i]
  }

  lemma AtIndex(e: string, at: nat, w: string, i: nat)
    requires At(e, at, w) && i < |w|
    ensures e[at + i] == w[i]
  {
    assert CharAt(e, at, w, i);
  }

  lemma AtSlice(e: string, at: nat, w: string)
    requires At(e, at, w)
    ensures e[at..at + |w|] == w
  {
    forall i | 0 <= i < |w|
      ensures e[at..at + |w|][i] == w[i]
    {
      AtIndex(e, at, w, i);
    }
  }

  lemma AtWhole(e: string)
    ensures At(e, 0, e)
  {}

  lemma Cut(e: string, at: nat, v: string, w: string)
    requires At(e, at, v + w)
    ensures At(e, at, v) && At(e, at + |v|, w)
  {
    forall i | 0 <= i < |v|
      ensures CharAt(e, at, v, i)
    {
      AtIndex(e, at, v + w, i);
    }
    var mid := at + |v|;
    forall i | 0 <= i < |w|
      ensures CharAt(e, mid, w, i)
    {
      AtIndex(e, at, v + w, |v| + i);
    }
  }

  lemma CutThree(e: string, at: nat, u: string, v: string, w: string)
    requires At(e, at, u + v + w)
    ensures At(e, at, u) && At(e, at + |u|, v) && At(e, at + |u| + |v|, w)
  {
    Cut(e, at, u + v, w);
    Cut(e, at, u, v);
  }

  /** Skipping from `a` to `b` does not change what closes. */
  ghost predicate Balanced(e: string, a: nat, b: nat) {
    a <= b <= |e| && forall bal: nat {:trigger Skips(e, a, b, bal)} :: bal > 0 ==> Skips(e, a, b, bal)
  }

  ghost predicate Skips(e: string, a: nat, b: nat, bal: nat)
    requires a <= b <= |e|
  {
    Close(e, a, bal) == Close(e, b, bal)
  }

  lemma BalancedTwo(e: string, a: nat, b: nat, c: nat)
    requires Balanced(e, a, b) && Balanced(e, b, c)
    ensures Balanced(e, a, c)
  {
    forall bal: nat | bal > 0
      ensures Skips(e, a, c, bal)
    {
      assert Skips(e, a, b, bal) && Skips(e, b, c, bal);
    }
  }

  lemma BalancedThree(e: string, at: nat, a: nat, b: nat, c: nat)
    requires Balanced(e, at, at + a) && Balanced(e, at + a, at + a + b) && Balanced(e, at + a + b, at + a + b + c)
    ensures Balanced(e, at, at + a + b + c)
  {
    BalancedTwo(e, at, at + a, at + a + b);
    BalancedTwo(e, at, at + a + b, at + a + b + c);
  }

  lemma FlatIsBalanced(e: string, at: nat, w: string)
    requires At(e, at, w) && forall i :: 0 <= i < |w| ==> w[i] != '(' && w[i] != ')'
    ensures Balanced(e, at, at + |w|)
  {
    var to := at + |w|;
    forall i | at <= i < to
      ensures e[i] != '(' && e[i] != ')'
    {
      AtIndex(e, at, w, i - at);
    }
    forall bal: nat | bal > 0
      ensures Skips(e, at, to, bal)
    {
      CloseSkips(e, at, to, bal);
    }
  }

  lemma GroupIsBalanced(e: string, a: nat, b: nat)
    requires a < b < |e| && e[a] == '(' && e[b] == ')' && Balanced(e, a + 1, b)
    ensures Balanced(e, a, b + 1)
  {
    var to := b + 1;
    forall bal: nat | bal > 0
      ensures Skips(e, a, to, bal)
    {
      assert Skips(e, a + 1, b, bal + 1);
    }
  }

  /** Parentheses around balanced text close after it. */
  lemma BalancedCloses(e: string, a: nat, b: nat)
    requires a <= b < |e| && e[b] == ')' && Balanced(e, a, b)
    ensures Close(e, a, 1) == Some(b + 1)
  {
    assert Skips(e, a, b, 1);
    assert Close(e, b + 1, 0) == Some(b + 1);
  }

  lemma GapIsFlat(gap: string, op: Option<Op>, gap2: string)
    requires AllWs(gap) && AllWs(gap2)
    ensures var s := PrintGap(gap, op, gap2); forall i :: 0 <= i < |s| ==> s[i] != '(' && s[i] != ')'
  {}

  /** Printed text is balanced. */
  lemma {:induction false} PrintIsBalanced(e: string, at: nat, t: Text)
    requires WellSpaced(t) && At(e, at, Print(t))
    ensures Balanced(e, at, at + |Print(t)|)
    decreases t
  {
    var a, b, c := t.lead, PrintTerm(t.first), PrintRest(t.rest);
    CutThree(e, at, a, b, c);
    FlatIsBalanced(e, at, a);
    TermIsBalanced(e, at + |a|, t.first);
    RestIsBalanced(e, at + |a| + |b|, t.rest);
    BalancedThree(e, at, |a|, |b|, |c|);
  }

  lemma {:induction false} TermIsBalanced(e: string, at: nat, t: TermText)
    requires WellSpacedTerm(t) && At(e, at, PrintTerm(t))
    ensures Balanced(e, at, at + |PrintTerm(t)|)
    decreases t
  {
    match t
    case LeafText(k, v) =>
      FlatIsBalanced(e, at, k + "=" + v);
    case GroupText(inner) =>
      var p := Print(inner);
      CutThree(e, at, "(", p, ")");
      AtIndex(e, at, "(", 0);
      AtIndex(e, at + 1 + |p|, ")", 0);
      PrintIsBalanced(e, at + 1, inner);
      GroupIsBalanced(e, at, at + 1 + |p|);
  }

  lemma {:induction false} RestIsBalanced(e: string, at: nat, r: RestText)
    requires WellSpacedRest(r) && At(e, at, PrintRest(r))
    ensures Balanced(e, at, at + |PrintRest(r)|)
    decreases r
  {
    match r
    case Trail(ws) =>
      FlatIsBalanced(e, at, ws);
    case Next(gap, op, gap2, term, tail) =>
      var a, b, c := PrintGap(gap, op, gap2), PrintTerm(term), PrintRest(tail);
      CutThree(e, at, a, b, c);
      GapIsFlat(gap, op, gap2);
      FlatIsBalanced(e, at, a);
      TermIsBalanced(e, at + |a|, term);
      RestIsBalanced(e, at + |a| + |b|, tail);
      BalancedThree(e, at, |a|, |b|, |c|);
  }

  lemma SkipWsTo(e: string, at: nat, to: nat)
    requires at <= to <= |e| && (forall i :: at <= i < to ==> IsWs(e[i])) && (to < |e| ==> !IsWs(e[to]))
    ensures SkipWs(e, at) == to
  {}

  lemma SkipTokenTo(e: string, at: nat, to: nat)
    requires at <= to <= |e| && (forall i :: at <= i < to ==> !IsWs(e[i])) && (to < |e| ==> IsWs(e[to]))
    ensures SkipToken(e, at) == to
  {}

  /** Only blanks from `at` to `to`. */
  ghost predicate Blank(e: string, at: nat, to: nat) {
    at <= to <= |e| && forall i :: at <= i < to ==> IsWs(e[i])
  }

  lemma AtBlank(e: string, at: nat, ws: string)
    requires At(e, at, ws) && AllWs(ws)
    ensures Blank(e, at, at + |ws|)
  {
    forall i | at <= i < at + |ws|
      ensures IsWs(e[i])
    {
      AtIndex(e, at, ws, i - at);
    }
  }

  lemma SkipPlain(e: string, at: nat, w: string)
    requires At(e, at, w) && (forall i :: 0 <= i < |w| ==> !IsWs(w[i])) && (at + |w| < |e| ==> IsWs(e[at + |w|]))
    ensures SkipToken(e, at) == at + |w|
  {
    forall i | at <= i < at + |w|
      ensures !IsWs(e[i])
    {
      AtIndex(e, at, w, i - at);
    }
    SkipTokenTo(e, at, at + |w|);
  }

  /** A printed term does not start with a blank. */
  lemma TermStarts(t: TermText)
    requires ReadableTerm(t)
    ensures !IsWs(PrintTerm(t)[0])
    ensures t.LeafText? ==> PrintTerm(t)[0] != '('
    ensures t.GroupText? ==> PrintTerm(t)[0] == '('
  {}

  lemma FindEqIn(k: string, v: string)
    requires forall i :: 0 <= i < |k| ==> k[i] != '='
    ensures FindEq(k + "=" + v, 0) == |k|
  {
    var s := k + "=" + v;
    assert s[|k|] == '=';
    assert forall i :: 0 <= i < |k| ==> s[i] == k[i];
  }

  // ----- One step of each parse function

  /** Parsing a term at `at` gives `t`, up to `next`. */
  ghost predicate TermReads(e: string, at: nat, t: Term, next: nat) {
    forall n {:trigger TermReadsTo(e, at, t, n)} :: n == next ==> TermReadsTo(e, at, t, n)
  }

  ghost predicate TermReadsTo(e: string, at: nat, t: Term, next: nat) {
    at <= |e| && ParseTerm(e, at) == Some(Parsed(t, next))
  }

  /** Parsing from `at` to the end gives `rest`. */
  ghost predicate RestReads(e: string, at: nat, rest: Rest) {
    forall n {:trigger RestReadsFrom(e, n, rest)} :: n == at ==> RestReadsFrom(e, n, rest)
  }

  ghost predicate RestReadsFrom(e: string, at: nat, rest: Rest) {
    at <= |e| && ParseRest(e, at) == Some(rest)
  }

  lemma ParseLeafAt(e: string, at: nat, tok: nat, end: nat, k: string, v: string)
    requires at <= tok < end <= |e| && SkipWs(e, at) == tok && e[tok] != '(' && SkipToken(e, tok) == end
    requires e[tok..end] == k + "=" + v && forall i :: 0 <= i < |k| ==> k[i] != '='
    ensures TermReads(e, at, Leaf(k, v), end)
  {
    FindEqIn(k, v);
    assert (k + "=" + v)[..|k|] == k && (k + "=" + v)[|k| + 1..] == v;
    assert TermReadsTo(e, at, Leaf(k, v), end);
  }

  lemma ParseGroupAt(e: string, at: nat, tok: nat, close: nat, x: Expr)
    requires at <= tok < close < |e| && SkipWs(e, at) == tok && e[tok] == '('
    requires Close(e, tok + 1, 1) == Some(close + 1) && ParseExpr(e[tok + 1..close]) == Some(x)
    ensures TermReads(e, at, Group(x), close + 1)
  {
    ParseGroupIs(e, tok, close + 1);
    GroupReads(e, at, tok, Group(x), close + 1);
  }

  lemma GroupReads(e: string, at: nat, tok: nat, t: Term, next: nat)
    requires at <= tok < |e| && SkipWs(e, at) == tok && e[tok] == '(' && ParseGroup(e, tok) == Some(Parsed(t, next))
    ensures TermReads(e, at, t, next)
  {
    assert ParseTerm(e, at) == ParseGroup(e, tok);
    assert TermReadsTo(e, at, t, next);
  }

  lemma ParseGroupIs(e: string, tok: nat, end: nat)
    requires tok < end - 1 < |e| && Close(e, tok + 1, 1) == Some(end)
    ensures ParseGroup(e, tok) ==
            match ParseExpr(e[tok + 1..end - 1])
            case None => None
            case Some(x) => Some(Parsed(Group(x), end))
  {}

  /** What starts at `at` reads as `op`, up to `next`, and only blanks are left before the term at `tok`. */
  ghost predicate GapReads(e: string, at: nat, op: Op, next: nat, tok: nat) {
    at <= next && Blank(e, next, tok) && OpReads(e, at, op, next)
  }

  ghost predicate OpReads(e: string, at: nat, op: Op, next: nat) {
    forall n {:trigger OpReadsTo(e, at, op, n)} :: n == next ==> OpReadsTo(e, at, op, n)
  }

  ghost predicate OpReadsTo(e: string, at: nat, op: Op, next: nat) {
    at < |e| && SkipWs(e, at) < |e| && ParseOp(e, at) == Some(Parsed(op, next))
  }

  lemma ParseRestAt(e: string, at: nat, op: Op, next: nat, tok: nat, t: Term, next2: nat, rest: Rest)
    requires GapReads(e, at, op, next, tok) && next < next2 <= |e| && TermReads(e, next, t, next2)
    requires RestReads(e, next2, rest)
    ensures RestReads(e, at, More(op, t, rest))
  {
    assert OpReadsTo(e, at, op, next) && TermReadsTo(e, next, t, next2) && RestReadsFrom(e, next2, rest);
    assert RestReadsFrom(e, at, More(op, t, rest));
  }

  lemma ParseExprAt(e: string, t: Term, next: nat, rest: Rest)
    requires next <= |e| && TermReads(e, 0, t, next) && RestReads(e, next, rest)
    ensures ParseExpr(e) == Some(Expr(t, rest))
  {
    assert TermReadsTo(e, 0, t, next) && RestReadsFrom(e, next, rest);
  }

  // ----- Printed text parses back

  lemma ParsePrintedLeaf(e: string, at: nat, tok: nat, t: TermText)
    requires t.LeafText? && ReadableTerm(t) && Blank(e, at, tok) && At(e, tok, PrintTerm(t))
    requires tok + |PrintTerm(t)| < |e| ==> IsWs(e[tok + |PrintTerm(t)|])
    ensures TermReads(e, at, TermMeaning(t), tok + |PrintTerm(t)|)
  {
    TermStarts(t);
    AtIndex(e, tok, PrintTerm(t), 0);
    SkipWsTo(e, at, tok);
    SkipPlain(e, tok, PrintTerm(t));
    AtSlice(e, tok, PrintTerm(t));
    ParseLeafAt(e, at, tok, tok + |PrintTerm(t)|, t.key, t.value);
  }

  /** A printed term, after blanks and before a blank or the end, parses back. */
  lemma {:induction false} ParsePrintedTerm(e: string, at: nat, tok: nat, t: TermText)
    requires ReadableTerm(t) && Blank(e, at, tok) && At(e, tok, PrintTerm(t))
    requires tok + |PrintTerm(t)| < |e| ==> IsWs(e[tok + |PrintTerm(t)|])
    ensures TermReads(e, at, TermMeaning(t), tok + |PrintTerm(t)|)
    decreases t, 0
  {
    match t
    case LeafText(_, _) =>
      ParsePrintedLeaf(e, at, tok, t);
    case GroupText(inner) =>
      ParsePrintedGroup(e, at, tok, inner, Print(inner), tok + 1 + |Print(inner)|);
  }

  lemma {:induction false} ParsePrintedGroup(e: string, at: nat, tok: nat, inner: Text, p: string, close: nat)
    requires Readable(inner) && p == Print(inner) && Closes(p) && Blank(e, at, tok) && At(e, tok, "(" + p + ")")
    requires close == tok + 1 + |p|
    ensures TermReads(e, at, Group(Meaning(inner)), close + 1)
    decreases inner, 2
  {
    ParsePrinted(inner);
    GroupCloses(e, tok, p, close);
    ParseBetween(e, at, tok, close, Meaning(inner));
  }

  /** What closes on its own closes at the same place in a longer string. */
  lemma {:induction false} CloseWithin(e: string, a: nat, w: string, i: nat, bal: nat)
    requires At(e, a, w) && i <= |w|
    ensures Close(w, i, bal).Some? ==> Close(e, a + i, bal) == Some(a + Close(w, i, bal).value)
    ensures Close(e, a + i, bal).Some? && Close(e, a + i, bal).value <= a + |w| ==>
              Close(w, i, bal) == Some(Close(e, a + i, bal).value - a)
    decreases |w| - i
  {
    if bal > 0 && i < |w| {
      AtIndex(e, a, w, i);
      var next := if w[i] == '(' then bal + 1 else if w[i] == ')' then bal - 1 else bal;
      CloseWithin(e, a, w, i + 1, next);
    }
  }

  lemma GroupCloses(e: string, tok: nat, p: string, close: nat)
    requires Closes(p) && At(e, tok, "(" + p + ")") && close == tok + 1 + |p|
    ensures close < |e| && e[tok] == '(' && e[tok + 1..close] == p && ClosedAt(e, tok + 1, close)
  {
    assert "(" + p + ")" == "(" + (p + ")");
    Cut(e, tok, "(", p + ")");
    AtIndex(e, tok, "(", 0);
    assert EndsAt(p + ")", 0, |p| + 1);
    CloseWithin(e, tok + 1, p + ")", 0, 1);
    assert EndsAt(e, tok + 1, close + 1);
    Cut(e, tok + 1, p, ")");
    AtSlice(e, tok + 1, p);
  }

  lemma ParseBetween(e: string, at: nat, tok: nat, close: nat, x: Expr)
    requires Blank(e, at, tok) && tok < close < |e| && e[tok] == '('
    requires ClosedAt(e, tok + 1, close) && ParseExpr(e[tok + 1..close]) == Some(x)
    ensures TermReads(e, at, Group(x), close + 1)
  {
    assert EndsAt(e, tok + 1, close + 1);
    SkipWsTo(e, at, tok);
    ParseGroupAt(e, at, tok, close, x);
  }

  lemma RestStarts(r: RestText)
    requires ReadableRest(r)
    ensures PrintRest(r) != "" ==> IsWs(PrintRest(r)[0])
  {
    if r.Next? {
      assert PrintRest(r)[0] == r.gap[0];
    }
  }

  /** What follows a term is a blank or the end. */
  lemma AfterTerm(e: string, at: nat, r: RestText)
    requires ReadableRest(r) && At(e, at, PrintRest(r)) && at + |PrintRest(r)| == |e|
    ensures at < |e| ==> IsWs(e[at])
  {
    RestStarts(r);
    if PrintRest(r) != "" {
      AtIndex(e, at, PrintRest(r), 0);
    }
  }

  /** A printed expression parses back. */
  lemma {:induction false} ParsePrinted(t: Text)
    requires Readable(t)
    ensures ParseExpr(Print(t)) == Some(Meaning(t))
    decreases t, 1
  {
    AtWhole(Print(t));
    CutThree(Print(t), 0, t.lead, PrintTerm(t.first), PrintRest(t.rest));
    ParseParts(Print(t), t.lead, t.first, t.rest, |t.lead| + |PrintTerm(t.first)|);
  }

  lemma {:induction false} ParseParts(e: string, lead: string, first: TermText, rest: RestText, next: nat)
    requires AllWs(lead) && ReadableTerm(first) && ReadableRest(rest)
    requires At(e, 0, lead) && At(e, |lead|, PrintTerm(first)) && next == |lead| + |PrintTerm(first)|
    requires At(e, next, PrintRest(rest)) && next + |PrintRest(rest)| == |e|
    ensures ParseExpr(e) == Some(Expr(TermMeaning(first), RestMeaning(rest)))
    decreases Text(lead, first, rest), 0
  {
    ParseFirst(e, lead, first, rest, next);
    ParsePrintedRest(e, next, rest);
    ParseExprAt(e, TermMeaning(first), next, RestMeaning(rest));
  }

  lemma {:induction false} ParseFirst(e: string, lead: string, first: TermText, rest: RestText, next: nat)
    requires AllWs(lead) && ReadableTerm(first) && ReadableRest(rest)
    requires At(e, 0, lead) && At(e, |lead|, PrintTerm(first)) && next == |lead| + |PrintTerm(first)|
    requires At(e, next, PrintRest(rest)) && next + |PrintRest(rest)| == |e|
    ensures TermReads(e, 0, TermMeaning(first), next)
    decreases first, 1
  {
    AtBlank(e, 0, lead);
    AfterTerm(e, next, rest);
    ParsePrintedTerm(e, 0, |lead|, first);
  }

  lemma {:induction false} ParsePrintedRest(e: string, at: nat, r: RestText)
    requires ReadableRest(r) && At(e, at, PrintRest(r)) && at + |PrintRest(r)| == |e|
    ensures RestReads(e, at, RestMeaning(r))
    decreases r
  {
    match r
    case Trail(ws) =>
      ParseTrail(e, at, ws);
    case Next(gap, op, gap2, term, tail) =>
      CutNext(e, at, r);
      var tok := at + |PrintGap(gap, op, gap2)|;
      var next := tok + |PrintTerm(term)|;
      ParsePrintedRest(e, next, tail);
      ParsePrintedNext(e, at, gap, op, gap2, term, tok, next, RestMeaning(tail));
  }

  lemma ParseTrail(e: string, at: nat, ws: string)
    requires AllWs(ws) && At(e, at, ws) && at + |ws| == |e|
    ensures RestReads(e, at, End)
  {
    AtBlank(e, at, ws);
    SkipWsTo(e, at, |e|);
    assert RestReadsFrom(e, at, End);
  }

  lemma CutNext(e: string, at: nat, r: RestText)
    requires r.Next? && ReadableRest(r) && At(e, at, PrintRest(r)) && at + |PrintRest(r)| == |e|
    ensures var tok := at + |PrintGap(r.gap, r.op, r.gap2)|;
            var next := tok + |PrintTerm(r.term)|;
            && At(e, at, PrintGap(r.gap, r.op, r.gap2)) && At(e, tok, PrintTerm(r.term))
            && At(e, next, PrintRest(r.tail)) && next + |PrintRest(r.tail)| == |e| && (next < |e| ==> IsWs(e[next]))
  {
    CutThree(e, at, PrintGap(r.gap, r.op, r.gap2), PrintTerm(r.term), PrintRest(r.tail));
    AfterTerm(e, at + |PrintGap(r.gap, r.op, r.gap2)| + |PrintTerm(r.term)|, r.tail);
  }

  lemma {:induction false} ParsePrintedNext(e: string, at: nat, gap: string, op: Option<Op>, gap2: string,
                                            term: TermText, tok: nat, next: nat, rest: Rest)
    requires AllWs(gap) && gap != "" && AllWs(gap2) && (gap2 == "" <==> op.None?) && ReadableTerm(term)
    requires At(e, at, PrintGap(gap, op, gap2)) && tok == at + |PrintGap(gap, op, gap2)|
    requires At(e, tok, PrintTerm(term)) && next == tok + |PrintTerm(term)| && (next < |e| ==> IsWs(e[next]))
    requires RestReads(e, next, rest)
    ensures RestReads(e, at, More(if op == Some(Or) then Or else And, TermMeaning(term), rest))
    decreases term, 2
  {
    var opEnd := ParsePrintedGap(e, at, gap, op, gap2, term);
    ParseAfterGap(e, at, if op == Some(Or) then Or else And, opEnd, tok, term, next, rest);
  }

  lemma {:induction false} ParseAfterGap(e: string, at: nat, op: Op, opEnd: nat, tok: nat, term: TermText, next: nat,
                                         rest: Rest)
    requires GapReads(e, at, op, opEnd, tok) && ReadableTerm(term) && At(e, tok, PrintTerm(term))
    requires next == tok + |PrintTerm(term)| && (next < |e| ==> IsWs(e[next])) && RestReads(e, next, rest)
    ensures RestReads(e, at, More(op, TermMeaning(term), rest))
    decreases term, 1
  {
    ParsePrintedTerm(e, opEnd, tok, term);
    ParseRestAt(e, at, op, opEnd, tok, TermMeaning(term), next, rest);
  }

  /** What is between two terms reads as the operator, and leaves only blanks before the term. */
  lemma ParsePrintedGap(e: string, at: nat, gap: string, op: Option<Op>, gap2: string, term: TermText) returns (next: nat)
    requires AllWs(gap) && gap != "" && AllWs(gap2) && (gap2 == "" <==> op.None?) && ReadableTerm(term)
    requires At(e, at, PrintGap(gap, op, gap2)) && At(e, at + |PrintGap(gap, op, gap2)|, PrintTerm(term))
    requires var end := at + |PrintGap(gap, op, gap2)| + |PrintTerm(term)|; end < |e| ==> IsWs(e[end])
    ensures GapReads(e, at, if op == Some(Or) then Or else And, next, at + |PrintGap(gap, op, gap2)|)
  {
    if op.None? {
      assert PrintGap(gap, op, gap2) == gap;
      ImplicitGap(e, at, gap, term);
      next := at;
    } else {
      CutThree(e, at, gap, PrintOp(op), gap2);
      ExplicitGap(e, at, gap, op.value, gap2);
      next := at + |gap| + |PrintOp(op)|;
    }
  }

  lemma ImplicitGap(e: string, at: nat, gap: string, term: TermText)
    requires AllWs(gap) && gap != "" && ReadableTerm(term) && At(e, at, gap) && At(e, at + |gap|, PrintTerm(term))
    requires var end := at + |gap| + |PrintTerm(term)|; end < |e| ==> IsWs(e[end])
    ensures GapReads(e, at, And, at, at + |gap|)
  {
    var nws := at + |gap|;
    AtIndex(e, at, gap, 0);
    AtBlank(e, at, gap);
    TermStarts(term);
    AtIndex(e, nws, PrintTerm(term), 0);
    SkipWsTo(e, at, nws);
    NotAnOperator(e, nws, term);
    ParseOpAt(e, at, nws, SkipToken(e, nws));
    assert OpReadsTo(e, at, And, at);
  }

  lemma ExplicitGap(e: string, at: nat, gap: string, op: Op, gap2: string)
    requires AllWs(gap) && gap != "" && AllWs(gap2) && gap2 != "" && At(e, at, gap)
    requires At(e, at + |gap|, PrintOp(Some(op))) && At(e, at + |gap| + |PrintOp(Some(op))|, gap2)
    ensures var next := at + |gap| + |PrintOp(Some(op))|;
            GapReads(e, at, op, next, next + |gap2|)
  {
    var nws := at + |gap|;
    var next := nws + |PrintOp(Some(op))|;
    AtIndex(e, at, gap, 0);
    AtBlank(e, at, gap);
    AtIndex(e, nws, PrintOp(Some(op)), 0);
    AtIndex(e, next, gap2, 0);
    AtBlank(e, next, gap2);
    SkipWsTo(e, at, nws);
    SkipPlain(e, nws, PrintOp(Some(op)));
    AtSlice(e, nws, PrintOp(Some(op)));
    ParseOpAt(e, at, nws, next);
    assert OpReadsTo(e, at, op, next);
  }

  lemma ParseOpAt(e: string, at: nat, nws: nat, xws: nat)
    requires at < nws < |e| && IsWs(e[at]) && SkipWs(e, at) == nws && SkipToken(e, nws) == xws
    ensures ParseOp(e, at) == if e[nws..xws] == "and" then Some(Parsed(And, xws))
                              else if e[nws..xws] == "or" then Some(Parsed(Or, xws))
                              else Some(Parsed(And, at))
  {}

  lemma NotAnOperator(e: string, at: nat, t: TermText)
    requires ReadableTerm(t) && At(e, at, PrintTerm(t))
    requires at + |PrintTerm(t)| < |e| ==> IsWs(e[at + |PrintTerm(t)|])
    ensures e[at..SkipToken(e, at)] != "and" && e[at..SkipToken(e, at)] != "or"
  {
    var p := PrintTerm(t);
    TermStarts(t);
    AtIndex(e, at, p, 0);
    match t
    case LeafText(k, v) =>
      SkipPlain(e, at, p);
      AtSlice(e, at, p);
      assert p[|k|] == '=';
    case GroupText(inner) =>
      assert e[at..SkipToken(e, at)][0] == '(';
  }

  // ----- Texts whose predicates have no parentheses can be read

  lemma {:induction false} PlainIsReadable(t: Text)
    requires WellSpaced(t)
    ensures Readable(t)
    decreases t
  {
    PlainTermIsReadable(t.first);
    PlainRestIsReadable(t.rest);
  }

  lemma {:induction false} PlainTermIsReadable(t: TermText)
    requires WellSpacedTerm(t)
    ensures ReadableTerm(t)
    decreases t
  {
    match t
    case LeafText(_, _) =>
    case GroupText(inner) =>
      PlainIsReadable(inner);
      var p := Print(inner);
      var w := p + ")";
      AtWhole(w);
      Cut(w, 0, p, ")");
      PrintIsBalanced(w, 0, inner);
      BalancedCloses(w, 0, |p|);
      assert EndsAt(w, 0, |p| + 1);
  }

  lemma {:induction false} PlainRestIsReadable(r: RestText)
    requires WellSpacedRest(r)
    ensures ReadableRest(r)
    decreases r
  {
    match r
    case Trail(_) =>
    case Next(_, _, _, term, tail) =>
      PlainTermIsReadable(term);
      PlainRestIsReadable(tail);
  }

  // ----- Every string that parses is a text

  lemma {:induction false} LeafTextOf(e: string, at: nat) returns (t: TermText)
    requires at <= |e| && SkipWs(e, at) < |e| && e[SkipWs(e, at)] != '(' && ParseTerm(e, at).Some?
    ensures ReadableTerm(t) && TermMeaning(t) == ParseTerm(e, at).value.value
    ensures PrintTerm(t) == e[SkipWs(e, at)..ParseTerm(e, at).value.next]
  {
    var tok := SkipWs(e, at);
    var end := SkipToken(e, tok);
    assert ParseTerm(e, at) == ParseLeaf(e[tok..end], end);
    t := TokenText(e[tok..end], end);
  }

  lemma TokenText(leaf: string, end: nat) returns (t: TermText)
    requires leaf != "" && leaf[0] != '(' && (forall i :: 0 <= i < |leaf| ==> !IsWs(leaf[i]))
    requires ParseLeaf(leaf, end).Some?
    ensures ReadableTerm(t) && TermMeaning(t) == ParseLeaf(leaf, end).value.value && PrintTerm(t) == leaf
  {
    var eq := FindEq(leaf, 0);
    t := LeafText(leaf[..eq], leaf[eq + 1..]);
    assert leaf[eq] == '=' && leaf == leaf[..eq] + "=" + leaf[eq + 1..];
  }

  lemma {:induction false} TermTextOf(e: string, at: nat) returns (t: TermText)
    requires at <= |e| && SkipWs(e, at) < |e| && ParseTerm(e, at).Some?
    ensures ReadableTerm(t) && TermMeaning(t) == ParseTerm(e, at).value.value
    ensures PrintTerm(t) == e[SkipWs(e, at)..ParseTerm(e, at).value.next]
    decreases |e|, 0
  {
    var tok := SkipWs(e, at);
    if e[tok] == '(' {
      var end := Close(e, tok + 1, 1).value;
      var p := e[tok + 1..end - 1];
      var inner := TextOf(p);
      t := GroupText(inner);
      GroupTextIs(e, tok, end, inner);
    } else {
      t := LeafTextOf(e, at);
    }
  }

  lemma GroupTextIs(e: string, tok: nat, end: nat, inner: Text)
    requires tok + 1 < end <= |e| && e[tok] == '(' && Close(e, tok + 1, 1) == Some(end)
    requires Readable(inner) && Print(inner) == e[tok + 1..end - 1]
    ensures ReadableTerm(GroupText(inner)) && PrintTerm(GroupText(inner)) == e[tok..end]
  {
    SliceCloses(e, tok + 1, end, Print(inner));
    Parenthesised(e, tok, end);
  }

  lemma Parenthesised(e: string, tok: nat, end: nat)
    requires tok + 1 < end <= |e| && e[tok] == '(' && e[end - 1] == ')'
    ensures e[tok..end] == "(" + e[tok + 1..end - 1] + ")"
  {
    ThreeSlices(e, tok, tok + 1, end - 1, end);
    assert e[tok..tok + 1] == "(" && e[end - 1..end] == ")";
  }

  lemma SliceCloses(e: string, a: nat, end: nat, p: string)
    requires a < end <= |e| && Close(e, a, 1) == Some(end) && p == e[a..end - 1]
    ensures Closes(p)
  {
    var w := p + ")";
    forall i | 0 <= i < |w|
      ensures CharAt(e, a, w, i)
    {}
    CloseWithin(e, a, w, 0, 1);
    assert EndsAt(w, 0, |p| + 1);
  }

  lemma ThreeSlices(e: string, a: nat, b: nat, c: nat, d: nat)
    requires a <= b <= c <= d <= |e|
    ensures e[a..d] == e[a..b] + e[b..c] + e[c..d]
  {}

  /** The blanks, and the operator if there is one, before the term at the first blank after `at`. */
  lemma GapOf(e: string, at: nat, op: Parsed<Op>) returns (gap: string, sign: Option<Op>, gap2: string, tok: nat)
    requires at < |e| && SkipWs(e, at) < |e| && ParseOp(e, at) == Some(op) && op.next <= |e| && SkipWs(e, op.next) < |e|
    ensures AllWs(gap) && gap != "" && AllWs(gap2) && (gap2 == "" <==> sign.None?)
    ensures op.value == if sign == Some(Or) then Or else And
    ensures tok == SkipWs(e, op.next) && at <= tok && PrintGap(gap, sign, gap2) == e[at..tok]
  {
    var nws := SkipWs(e, at);
    var xws := SkipToken(e, nws);
    tok := SkipWs(e, op.next);
    gap := e[at..nws];
    if e[nws..xws] == "and" || e[nws..xws] == "or" {
      sign, gap2 := Some(op.value), e[xws..tok];
      assert op.value == And || op.value == Or;
      ThreeSlices(e, at, nws, xws, tok);
    } else {
      sign, gap2 := None, "";
    }
  }

  lemma {:induction false} RestTextOf(e: string, at: nat) returns (r: RestText)
    requires at <= |e| && ParseRest(e, at).Some?
    ensures ReadableRest(r) && RestMeaning(r) == ParseRest(e, at).value && PrintRest(r) == e[at..]
    decreases |e|, 1, |e| - at
  {
    if SkipWs(e, at) == |e| {
      r := Trail(e[at..]);
    } else {
      var op := ParseOp(e, at).value;
      var t := ParseTerm(e, op.next).value;
      var gap, sign, gap2, tok := GapOf(e, at, op);
      var term := TermTextOf(e, op.next);
      var tail := RestTextOf(e, t.next);
      r := Next(gap, sign, gap2, term, tail);
      RestStep(e, at, op, t, ParseRest(e, t.next).value);
      NextTextIs(e, at, tok, t.next, r);
    }
  }

  lemma NextTextIs(e: string, at: nat, tok: nat, next: nat, r: RestText)
    requires r.Next? && at <= tok <= next <= |e| && PrintGap(r.gap, r.op, r.gap2) == e[at..tok]
    requires PrintTerm(r.term) == e[tok..next] && PrintRest(r.tail) == e[next..]
    ensures PrintRest(r) == e[at..]
  {
    assert e[at..] == e[at..tok] + e[tok..next] + e[next..];
  }

  lemma {:induction false} TextOf(e: string) returns (t: Text)
    requires ParseExpr(e).Some?
    ensures Readable(t) && Print(t) == e && Meaning(t) == ParseExpr(e).value
    decreases |e|, 2
  {
    var first := ParseTerm(e, 0).value;
    var tok := SkipWs(e, 0);
    var term := TermTextOf(e, 0);
    var rest := RestTextOf(e, first.next);
    t := Text(e[..tok], term, rest);
    TextIs(e, tok, first.next, t);
  }

  lemma TextIs(e: string, tok: nat, next: nat, t: Text)
    requires tok <= next <= |e| && t.lead == e[..tok]
    requires PrintTerm(t.first) == e[tok..next] && PrintRest(t.rest) == e[next..]
    ensures Print(t) == e
  {
    assert e == e[..tok] + e[tok..next] + e[next..];
  }

  /** The accepted strings are exactly the texts that can be read, and each reads as its meaning. */
  lemma AcceptedExactly(e: string, x: Expr)
    ensures ParseExpr(e) == Some(x) <==> exists t :: Readable(t) && Print(t) == e && Meaning(t) == x
  {
    if ParseExpr(e) == Some(x) {
      var t := TextOf(e);
    }
    forall t | Readable(t) && Print(t) == e && Meaning(t) == x
      ensures ParseExpr(e) == Some(x)
    {
      ParsePrinted(t);
    }
  }

  // ----- Chains without parentheses

  /** A chain is a left fold over its terms, with a missing operator read as `and`. */
  lemma EvaluatePrinted(target: Target, t: Text)
    requires Readable(t)
    ensures Evaluates(target, Print(t)) ==
            match EvalTerm(target, TermMeaning(t.first))
            case None => None
            case Some(b) => EvalRest(target, b, RestMeaning(t.rest))
  {
    ParsePrinted(t);
  }

  /** `and` does not bind stronger than `or`: the chain `a or b and c` is `(a or b) and c`. */
  lemma EqualPrecedence(target: Target, a: TermText, b: TermText, c: TermText, x: bool, y: bool, z: bool)
    requires WellSpacedTerm(a) && WellSpacedTerm(b) && WellSpacedTerm(c)
    requires EvalTerm(target, TermMeaning(a)) == Some(x) && EvalTerm(target, TermMeaning(b)) == Some(y)
    requires EvalTerm(target, TermMeaning(c)) == Some(z)
    ensures var chain := Text("", a, Next(" ", Some(Or), " ", b, Next(" ", Some(And), " ", c, Trail(""))));
            Evaluates(target, Print(chain)) == Some((x || y) && z)
  {
    var last := Next(" ", Some(And), " ", c, Trail(""));
    var rest := Next(" ", Some(Or), " ", b, last);
    assert WellSpacedRest(Trail("")) && WellSpacedRest(last) && WellSpacedRest(rest);
    PlainIsReadable(Text("", a, rest));
    EvaluatePrinted(target, Text("", a, rest));
    assert RestMeaning(Trail("")) == End && RestMeaning(last) == More(And, TermMeaning(c), End);
    assert EvalRest(target, (x || y) && z, End) == Some((x || y) && z);
    assert EvalRest(target, x || y, RestMeaning(last)) == EvalRest(target, (x || y) && z, End);
    assert EvalRest(target, x, RestMeaning(rest)) == EvalRest(target, x || y, RestMeaning(last));
  }

  // ----- And/or trees

  datatype Tree = Atom(key: string, value: string) | Node(op: Op, left: Tree, right: Tree)

  predicate WellFormedTree(t: Tree) {
    match t
    case Atom(k, v) => Plain(k) && Plain(v) && forall i :: 0 <= i < |k| ==> k[i] != '='
    case Node(_, l, r) => WellFormedTree(l) && WellFormedTree(r)
  }

  /** Every operator in its own parentheses. */
  function Parenthesized(t: Tree): TermText {
    match t
    case Atom(k, v) => LeafText(k, v)
    case Node(op, l, r) => GroupText(Text("", Parenthesized(l), Next(" ", Some(op), " ", Parenthesized(r), Trail(""))))
  }

  /** The truth value of a tree, None if the target refuses a predicate. */
  function Truth(target: Target, t: Tree): Option<bool> {
    match t
    case Atom(k, v) => if target.validate(k, v) then target.evaluate(k, v) else None
    case Node(op, l, r) =>
      match Truth(target, l)
      case None => None
      case Some(a) =>
        match Truth(target, r)
        case None => None
        case Some(b) => Some(Apply(op, a, b))
  }

  lemma EvalPair(target: Target, l: Term, op: Op, r: Term)
    ensures EvalTerm(target, Group(Expr(l, More(op, r, End)))) ==
            match EvalTerm(target, l)
            case None => None
            case Some(a) => match EvalTerm(target, r) case None => None case Some(b) => Some(Apply(op, a, b))
  {
    var x := Expr(l, More(op, r, End));
    assert EvalTerm(target, Group(x)) == EvalExpr(target, x);
    match EvalTerm(target, l)
    case None => assert EvalExpr(target, x) == None;
    case Some(a) =>
      assert EvalExpr(target, x) == EvalRest(target, a, x.rest);
      match EvalTerm(target, r)
      case None => assert EvalRest(target, a, x.rest) == None;
      case Some(b) =>
        assert EvalRest(target, a, x.rest) == EvalRest(target, Apply(op, a, b), End);
        assert EvalRest(target, Apply(op, a, b), End) == Some(Apply(op, a, b));
  }

  lemma {:induction false} TreeMeaning(target: Target, t: Tree)
    requires WellFormedTree(t)
    ensures WellSpacedTerm(Parenthesized(t))
    ensures EvalTerm(target, TermMeaning(Parenthesized(t))) == Truth(target, t)
  {
    match t
    case Atom(_, _) =>
    case Node(op, l, r) =>
      TreeMeaning(target, l);
      TreeMeaning(target, r);
      var rest := Next(" ", Some(op), " ", Parenthesized(r), Trail(""));
      assert WellSpacedRest(rest);
      EvalPair(target, TermMeaning(Parenthesized(l)), op, TermMeaning(Parenthesized(r)));
      assert RestMeaning(Trail("")) == End;
      assert op == And || op == Or;
      assert RestMeaning(rest) == More(op, TermMeaning(Parenthesized(r)), End);
  }

  /** Evaluating the parenthesised form of a tree gives the truth value of the tree. */
  lemma EvaluateTree(target: Target, t: Tree)
    requires WellFormedTree(t)
    ensures Evaluates(target, PrintTerm(Parenthesized(t))) == Truth(target, t)
  {
    var p := Parenthesized(t);
    var text := Text("", p, Trail(""));
    TreeMeaning(target, t);
    PlainIsReadable(text);
    ParsePrinted(text);
    assert Print(text) == PrintTerm(p);
    assert Meaning(text) == Expr(TermMeaning(p), End);
    assert forall b :: EvalRest(target, b, End) == Some(b);
    assert EvalExpr(target, Expr(TermMeaning(p), End)) == EvalTerm(target, TermMeaning(p));
  }
}
