/** What the mutations mean (decile-blueprint/tools/mutation.py), without the swap tables: comparisons by their
    truth on integers, arithmetic by what undoes it, and/or by duality. A mutant's changed token is the one and
    only replacement with that meaning. */
module SwapMeanings {
  import opened Options
  import opened MutationSites
  import opened Mutants

  // ----- comparisons -----

  /** Identity and membership have no truth on two integers. */
  function Truth(op: CmpOp, x: int, y: int): Option<bool> {
    match op
    case Gt => Some(x > y)
    case GtE => Some(x >= y)
    case Lt => Some(x < y)
    case LtE => Some(x <= y)
    case Eq => Some(x == y)
    case NotEq => Some(x != y)
    case _ => None
  }

  predicate Orders(op: CmpOp) {
    op == Gt || op == GtE || op == Lt || op == LtE
  }

  predicate Agree(a: CmpOp, b: CmpOp, x: int, y: int) {
    Truth(a, x, y).Some? && Truth(a, x, y) == Truth(b, x, y)
  }

  predicate Differ(a: CmpOp, b: CmpOp, x: int, y: int) {
    Truth(a, x, y).Some? && Truth(b, x, y).Some? && Truth(a, x, y) != Truth(b, x, y)
  }

  /** An order comparison changes on its boundary alone, an equality everywhere. */
  ghost predicate Compares(op: CmpOp, other: CmpOp) {
    forall x, y :: if Orders(op) && x != y then Agree(op, other, x, y) else Differ(op, other, x, y)
  }

  lemma SwappedComparison(op: CmpOp)
    requires SwapCmp(op).Some?
    ensures Compares(op, SwapCmp(op).value)
  {
  }

  lemma OneComparison(op: CmpOp, other: CmpOp)
    requires Compares(op, other)
    ensures SwapCmp(op) == Some(other)
  {
    assert if Orders(op) && 1 != 0 then Agree(op, other, 1, 0) else Differ(op, other, 1, 0);
    assert if Orders(op) && 0 != 1 then Agree(op, other, 0, 1) else Differ(op, other, 0, 1);
    assert Differ(op, other, 0, 0);
  }

  // ----- arithmetic -----

  function Product(x: real, y: real): real {
    x * y
  }

  function Quotient(x: real, y: real): real
    requires y != 0.0
  {
    x / y
  }

  /** The operators the harness swaps; a division by zero has no value. */
  function Result(op: ArithOp, x: real, y: real): Option<real> {
    match op
    case Add => Some(x + y)
    case Sub => Some(x - y)
    case Mult => Some(Product(x, y))
    case Div => if y == 0.0 then None else Some(Quotient(x, y))
    case _ => None
  }

  predicate Undone(op: ArithOp, other: ArithOp, x: real, y: real) {
    Result(op, x, y).Some? && Result(other, Result(op, x, y).value, y) == Some(x)
  }

  /** Each undoes the other. */
  ghost predicate Undoes(op: ArithOp, other: ArithOp) {
    forall x, y :: y != 0.0 ==> Undone(op, other, x, y)
  }

  lemma SwappedArithmetic(op: ArithOp)
    requires SwapArith(op).Some?
    ensures Undoes(op, SwapArith(op).value)
  {
    forall x, y | y != 0.0 ensures Undone(op, SwapArith(op).value, x, y) {
      match op
      case Mult => ProductBack(x, y);
      case Div => QuotientBack(x, y);
      case _ =>
    }
  }

  lemma ProductBack(x: real, y: real)
    requires y != 0.0
    ensures Quotient(Product(x, y), y) == x
  {
  }

  lemma QuotientBack(x: real, y: real)
    requires y != 0.0
    ensures Product(Quotient(x, y), y) == x
  {
  }

  lemma OneArithmetic(op: ArithOp, other: ArithOp)
    requires Undoes(op, other)
    ensures SwapArith(op) == Some(other)
  {
    assert Undone(op, other, 3.0, 2.0);
  }

  // ----- and, or -----

  function Joined(op: JoinOp, values: seq<bool>): bool {
    match op
    case And => forall i :: 0 <= i < |values| ==> values[i]
    case Or => exists i :: 0 <= i < |values| && values[i]
  }

  function Negated(values: seq<bool>): seq<bool> {
    seq(|values|, i requires 0 <= i < |values| => !values[i])
  }

  /** De Morgan's laws: one of the negated values is the negation of the other. */
  ghost predicate Dual(op: JoinOp, other: JoinOp) {
    forall values :: Joined(other, Negated(values)) == !Joined(op, values)
  }

  lemma DualIs(op: JoinOp, other: JoinOp)
    ensures Dual(op, other) <==> op != other
  {
    if op != other {
      forall values ensures Joined(other, Negated(values)) == !Joined(op, values) {
        assert forall i :: 0 <= i < |values| ==> Negated(values)[i] == !values[i];
      }
    } else {
      var mixed := [true, false];
      assert mixed[0] && !mixed[1];
      assert !Negated(mixed)[0] && Negated(mixed)[1];
      assert Joined(other, Negated(mixed)) != !Joined(op, mixed);
    }
  }

  // ----- tokens -----

  /** A number stands for one more. A zero of either kind is followed by the integer 1. */
  predicate Grown(n: Number, other: Number, rules: Rules) {
    match n
    case Integer(i) => other == Integer(i + 1)
    case Double(x) => if x == 0 then other == Integer(1) else other == Double(rules.plusOne(x))
  }

  /** `mid` is what the mutation of `tok` puts in its place. */
  ghost predicate Replaces(tok: Token, mid: seq<Token>, rules: Rules) {
    match tok
    case CmpTok(op) => |mid| == 1 && mid[0].CmpTok? && Compares(op, mid[0].cmp)
    case ArithTok(op) => |mid| == 1 && mid[0].ArithTok? && Undoes(op, mid[0].arith)
    case JoinTok(op, n) => |mid| == 1 && mid[0].JoinTok? && mid[0].arity == n && Dual(op, mid[0].join)
    case UnTok(op) => op == Not && mid == []
    case BoolTok(flag, line) => |mid| == 1 && mid[0].BoolTok? && mid[0].line == line && mid[0].flag != flag
    case NumTok(n, line) => |mid| == 1 && mid[0].NumTok? && mid[0].line == line && Grown(n, mid[0].number, rules)
    case _ => false
  }

  /** A number or a boolean on a docstring's line. */
  predicate Skipped(tok: Token, rules: Rules) {
    (tok.BoolTok? || tok.NumTok?) && tok.line in rules.skip
  }

  lemma SwappedReplaces(tok: Token, rules: Rules)
    requires IsSite(tok, rules)
    ensures Replaces(tok, Swapped(tok, rules), rules) && !Skipped(tok, rules)
  {
    match tok
    case CmpTok(op) => SwappedComparison(op);
    case ArithTok(op) => SwappedArithmetic(op);
    case JoinTok(op, _) => DualIs(op, if op == And then Or else And);
    case _ =>
  }

  /** The only replacement there is. */
  lemma {:induction false} OneReplacement(tok: Token, mid: seq<Token>, rules: Rules)
    requires Replaces(tok, mid, rules) && !Skipped(tok, rules)
    ensures IsSite(tok, rules) && mid == Swapped(tok, rules)
  {
    match tok
    case CmpTok(op) => OneComparison(op, mid[0].cmp);
    case ArithTok(op) => OneArithmetic(op, mid[0].arith);
    case JoinTok(op, _) => DualIs(op, mid[0].join);
    case _ =>
  }

  /** The sites are the tokens that have a replacement, save constants on docstring lines. */
  lemma {:induction false} SitesAre(tok: Token, rules: Rules)
    ensures IsSite(tok, rules) <==> !Skipped(tok, rules) && exists mid :: Replaces(tok, mid, rules)
  {
    if IsSite(tok, rules) {
      SwappedReplaces(tok, rules);
    } else if !Skipped(tok, rules) {
      forall mid | Replaces(tok, mid, rules) ensures false {
        OneReplacement(tok, mid, rules);
      }
    }
  }

  lemma {:induction false} ReplacementIs(tok: Token, rules: Rules)
    requires IsSite(tok, rules)
    ensures forall mid :: Replaces(tok, mid, rules) <==> mid == Swapped(tok, rules)
  {
    SwappedReplaces(tok, rules);
    forall mid | Replaces(tok, mid, rules) ensures mid == Swapped(tok, rules) {
      OneReplacement(tok, mid, rules);
    }
  }

  lemma {:induction false} MutantSpliced(t: Expr, rules: Rules, i: nat, p: nat, r: Expr)
    requires SiteAt(Tokens(t), rules, i, p)
    ensures IsMutant(t, rules, i, r) <==> Tokens(r) == Splice(Tokens(t), p, Swapped(Tokens(t)[p], rules))
  {
    var toks := Tokens(t);
    SitesBefore(toks, rules, p, |toks|);
    assert toks[..|toks|] == toks;
    if IsMutant(t, rules, i, r) {
      var q := Witness(t, rules, i, r);
      SiteAtUnique(toks, rules, i, p, q);
    }
  }

  /** Mutant `i` of a tree is the tree with token `p`, its site number `i`, replaced by what it means. */
  lemma {:induction false} MutantMeans(t: Expr, rules: Rules, i: nat, p: nat, r: Expr)
    requires SiteAt(Tokens(t), rules, i, p)
    ensures IsMutant(t, rules, i, r)
       <==> exists mid :: Replaces(Tokens(t)[p], mid, rules) && Tokens(r) == Splice(Tokens(t), p, mid)
  {
    MutantSpliced(t, rules, i, p, r);
    ReplacementIs(Tokens(t)[p], rules);
  }

  /** And its report says what was replaced by what. */
  lemma {:induction false} GeneratedMeans(t: Expr, rules: Rules, i: nat, m: Mutant) returns (p: nat)
    requires Generated(t, rules, i, m)
    ensures SiteAt(Tokens(t), rules, i, p) && m.report.before == Tokens(t)[p]
    ensures Replaces(m.report.before, m.report.after, rules)
    ensures Tokens(m.tree) == Splice(Tokens(t), p, m.report.after)
  {
    p :| SiteAt(Tokens(t), rules, i, p) && m.report == Applied(Tokens(t)[p], Swapped(Tokens(t)[p], rules));
    var q := Witness(t, rules, i, m.tree);
    SiteAtUnique(Tokens(t), rules, i, p, q);
    SwappedReplaces(Tokens(t)[p], rules);
  }
}
