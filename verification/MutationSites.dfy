/** The mutation harness's tree transformer (decile-blueprint/tools/mutation.py).

    A mutation site is addressed by its ordinal in one traversal of the tree. The reference the
    transformer is held to does not mention the traversal: a tree is written out in post-order as a
    sequence of tokens, some of which are sites, and mutant `i` is that sequence with its `i`-th
    site token replaced (or, for `not`, dropped). `Rebuild` shows the sequence determines the tree. */
module MutationSites {
  import opened Options

  datatype CmpOp = Gt | GtE | Lt | LtE | Eq | NotEq | Is | IsNot | In | NotIn
  datatype ArithOp = Add | Sub | Mult | Div | FloorDiv | Mod | Pow | MatMult | LShift | RShift
                   | BitOr | BitXor | BitAnd
  datatype JoinOp = And | Or
  datatype UnOp = Not | USub | UAdd | Invert

  /** An integer, or a double by its bits. A literal is not negative, so a double's bits order as its values
      do and zero's are 0. */
  datatype Number = Integer(n: int) | Double(bits: nat)

  /** The lines that carry docstrings, and how a double grows by one: whatever rounding does. */
  datatype Rules = Rules(skip: set<nat>, plusOne: nat -> nat)

  /** Adding one never makes a double smaller. */
  ghost predicate Grows(rules: Rules) {
    forall x: nat :: x <= rules.plusOne(x)
  }

  /** A syntax tree. `Node` is any construct the transformer has no rule for: it is visited child
      by child, in field order. */
  datatype Expr =
    | Compare(left: Expr, ops: seq<CmpOp>, comparators: seq<Expr>)
    | Binary(lhs: Expr, arith: ArithOp, rhs: Expr)
    | Join(join: JoinOp, values: seq<Expr>)
    | Unary(unary: UnOp, operand: Expr)
    | BoolConst(flag: bool, line: nat)
    | NumConst(number: Number, line: nat)
    | OtherConst(text: string)
    | Node(kind: string, children: seq<Expr>)

  // ----- the two swap tables -----

  function SwapCmp(op: CmpOp): Option<CmpOp> {
    match op
    case Gt => Some(GtE)
    case GtE => Some(Gt)
    case Lt => Some(LtE)
    case LtE => Some(Lt)
    case Eq => Some(NotEq)
    case NotEq => Some(Eq)
    case _ => None
  }

  function SwapArith(op: ArithOp): Option<ArithOp> {
    match op
    case Add => Some(Sub)
    case Sub => Some(Add)
    case Mult => Some(Div)
    case Div => Some(Mult)
    case _ => None
  }

  function Shifted(n: Number, rules: Rules): Number {
    match n
    case Integer(i) => Integer(if i == 0 then 1 else i + 1)
    case Double(x) => if x == 0 then Integer(1) else Double(rules.plusOne(x))
  }

  /** A double so large that adding one gives it back. */
  predicate Absorbs(n: Number, rules: Rules) {
    n.Double? && n.bits != 0 && rules.plusOne(n.bits) == n.bits
  }

  // ----- the reference: trees as token sequences -----

  datatype Token =
    | CmpTok(cmp: CmpOp)
    | CompareEnd(ops: nat, comparators: nat)
    | ArithTok(arith: ArithOp)
    | JoinTok(join: JoinOp, arity: nat)
    | UnTok(unary: UnOp)
    | BoolTok(flag: bool, line: nat)
    | NumTok(number: Number, line: nat)
    | OtherTok(text: string)
    | NodeTok(kind: string, arity: nat)

  function Tokens(t: Expr): seq<Token>
    decreases t, 1
  {
    match t
    case Compare(left, ops, comparators) =>
      Tokens(left) + AllTokens(comparators) + CmpTokens(ops) + [CompareEnd(|ops|, |comparators|)]
    case Binary(lhs, op, rhs) => Tokens(lhs) + Tokens(rhs) + [ArithTok(op)]
    case Join(op, values) => AllTokens(values) + [JoinTok(op, |values|)]
    case Unary(op, operand) => Tokens(operand) + [UnTok(op)]
    case BoolConst(b, line) => [BoolTok(b, line)]
    case NumConst(n, line) => [NumTok(n, line)]
    case OtherConst(s) => [OtherTok(s)]
    case Node(kind, children) => AllTokens(children) + [NodeTok(kind, |children|)]
  }

  function AllTokens(ts: seq<Expr>): seq<Token>
    decreases ts, 0
  {
    if ts == [] then [] else AllTokens(ts[..|ts| - 1]) + Tokens(ts[|ts| - 1])
  }

  function CmpTokens(ops: seq<CmpOp>): (r: seq<Token>) {
    seq(|ops|, i requires 0 <= i < |ops| => CmpTok(ops[i]))
  }

  /** Which tokens are mutation sites. */
  predicate IsSite(tok: Token, rules: Rules) {
    match tok
    case CmpTok(op) => SwapCmp(op).Some?
    case ArithTok(op) => SwapArith(op).Some?
    case JoinTok(_, _) => true
    case UnTok(op) => op == Not
    case BoolTok(_, line) => line !in rules.skip
    case NumTok(_, line) => line !in rules.skip
    case _ => false
  }

  /** What a site becomes; `not` is removed, so its token becomes nothing. */
  function Swapped(tok: Token, rules: Rules): seq<Token>
    requires IsSite(tok, rules)
  {
    match tok
    case CmpTok(op) => [CmpTok(SwapCmp(op).value)]
    case ArithTok(op) => [ArithTok(SwapArith(op).value)]
    case JoinTok(op, n) => [JoinTok(if op == And then Or else And, n)]
    case BoolTok(b, line) => [BoolTok(!b, line)]
    case NumTok(n, line) => [NumTok(Shifted(n, rules), line)]
    case _ => []
  }

  function SiteCount(toks: seq<Token>, rules: Rules): nat {
    if toks == [] then 0
    else SiteCount(toks[..|toks| - 1], rules) + (if IsSite(toks[|toks| - 1], rules) then 1 else 0)
  }

  /** The position of site number `k`: the site token with exactly `k` sites before it. */
  ghost predicate SiteAt(toks: seq<Token>, rules: Rules, k: int, p: nat) {
    p < |toks| && IsSite(toks[p], rules) && SiteCount(toks[..p], rules) == k
  }

  /** `a` with the token at `p` replaced by `mid`. */
  function Splice(a: seq<Token>, p: nat, mid: seq<Token>): seq<Token>
    requires p < |a|
  {
    a[..p] + mid + a[p + 1..]
  }

  /** `after` is `before` with site `k` swapped and every other token untouched; when there is no
      site `k`, nothing changes. */
  ghost predicate Mutated(before: seq<Token>, rules: Rules, k: int, after: seq<Token>) {
    if 0 <= k < SiteCount(before, rules) then
      exists p: nat :: SiteAt(before, rules, k, p)
        && after == Splice(before, p, Swapped(before[p], rules))
    else after == before
  }

  lemma {:induction false} SiteCountConcat(a: seq<Token>, b: seq<Token>, rules: Rules)
    ensures SiteCount(a + b, rules) == SiteCount(a, rules) + SiteCount(b, rules)
  {
    if b == [] {
      assert a + b == a;
    } else {
      SiteCountConcat(a, b[..|b| - 1], rules);
      assert (a + b)[..|a + b| - 1] == a + b[..|b| - 1];
    }
  }

  /** Counting is monotone along a sequence, so a site number names at most one position. */
  lemma SitesBefore(toks: seq<Token>, rules: Rules, p: nat, q: nat)
    requires p < q <= |toks|
    requires IsSite(toks[p], rules)
    ensures SiteCount(toks[..p], rules) + 1 <= SiteCount(toks[..q], rules)
  {
    assert toks[..q] == toks[..p] + [toks[p]] + toks[p + 1..q];
    SiteCountConcat(toks[..p] + [toks[p]], toks[p + 1..q], rules);
    SiteCountConcat(toks[..p], [toks[p]], rules);
    assert [toks[p]][..0] == [];
    assert SiteCount([toks[p]], rules) == 1;
  }

  lemma SiteAtUnique(toks: seq<Token>, rules: Rules, k: int, p: nat, q: nat)
    requires SiteAt(toks, rules, k, p) && SiteAt(toks, rules, k, q)
    ensures p == q
  {
    if p < q {
      SitesBefore(toks, rules, p, q);
    } else if q < p {
      SitesBefore(toks, rules, q, p);
    }
  }

  lemma SpliceLeft(a: seq<Token>, b: seq<Token>, p: nat, mid: seq<Token>)
    requires p < |a|
    ensures (a + b)[..p] == a[..p]
    ensures Splice(a, p, mid) + b == Splice(a + b, p, mid)
  {
    assert (a + b)[p + 1..] == a[p + 1..] + b;
  }

  lemma SpliceRight(a: seq<Token>, b: seq<Token>, p: nat, mid: seq<Token>)
    requires p < |b|
    ensures (a + b)[..|a| + p] == a + b[..p]
    ensures a + Splice(b, p, mid) == Splice(a + b, |a| + p, mid)
  {
    assert (a + b)[|a| + p + 1..] == b[p + 1..];
  }

  /** A site keeps its number in a concatenation's first part and is renumbered in its second. */
  lemma {:induction false} SiteAtConcat(a: seq<Token>, b: seq<Token>, rules: Rules, k: int, p: nat)
    ensures SiteAt(a, rules, k, p) ==> SiteAt(a + b, rules, k, p) && (a + b)[p] == a[p]
    ensures SiteAt(b, rules, k, p) ==>
              SiteAt(a + b, rules, SiteCount(a, rules) + k, |a| + p) && (a + b)[|a| + p] == b[p]
  {
    if SiteAt(a, rules, k, p) {
      SpliceLeft(a, b, p, []);
    }
    if SiteAt(b, rules, k, p) {
      SpliceRight(a, b, p, []);
      SiteCountConcat(a, b[..p], rules);
    }
  }

  /** Mutation number `k` of a concatenation falls in exactly one of its parts. */
  lemma {:induction false} MutatedConcat(a: seq<Token>, a': seq<Token>, b: seq<Token>, b': seq<Token>, rules: Rules,
                                         k: int)
    requires Mutated(a, rules, k, a')
    requires Mutated(b, rules, k - SiteCount(a, rules), b')
    ensures Mutated(a + b, rules, k, a' + b')
  {
    SiteCountConcat(a, b, rules);
    var n := SiteCount(a, rules);
    if 0 <= k < n {
      var p: nat :| SiteAt(a, rules, k, p) && a' == Splice(a, p, Swapped(a[p], rules));
      SiteAtConcat(a, b, rules, k, p);
      SpliceLeft(a, b, p, Swapped(a[p], rules));
    } else if n <= k < n + SiteCount(b, rules) {
      var p: nat :| SiteAt(b, rules, k - n, p) && b' == Splice(b, p, Swapped(b[p], rules));
      SiteAtConcat(a, b, rules, k - n, p);
      SpliceRight(a, b, p, Swapped(b[p], rules));
      assert SiteAt(a + b, rules, k, |a| + p);
    }
  }

  /** One token on its own. */
  lemma {:induction false} MutatedOne(tok: Token, rules: Rules, k: int)
    ensures SiteCount([tok], rules) == if IsSite(tok, rules) then 1 else 0
    ensures IsSite(tok, rules) && k == 0 ==> Mutated([tok], rules, k, Swapped(tok, rules))
    ensures !(IsSite(tok, rules) && k == 0) ==> Mutated([tok], rules, k, [tok])
  {
    assert [tok][..0] == [];
    assert SiteCount([tok], rules) == if IsSite(tok, rules) then 1 else 0;
    if IsSite(tok, rules) && k == 0 {
      assert SiteAt([tok], rules, k, 0);
      assert Swapped(tok, rules) == Splice([tok], 0, Swapped(tok, rules));
    }
  }

  // ----- the token sequence determines the tree -----

  datatype Item = Tree(t: Expr) | Cmp(c: CmpOp)

  function Trees(ts: seq<Expr>): seq<Item> {
    seq(|ts|, i requires 0 <= i < |ts| => Tree(ts[i]))
  }

  function Cmps(ops: seq<CmpOp>): seq<Item> {
    seq(|ops|, i requires 0 <= i < |ops| => Cmp(ops[i]))
  }

  predicate AllTrees(items: seq<Item>) {
    forall i :: 0 <= i < |items| ==> items[i].Tree?
  }

  predicate AllCmps(items: seq<Item>) {
    forall i :: 0 <= i < |items| ==> items[i].Cmp?
  }

  function UnTrees(items: seq<Item>): seq<Expr>
    requires AllTrees(items)
  {
    seq(|items|, i requires 0 <= i < |items| => items[i].t)
  }

  function UnCmps(items: seq<Item>): seq<CmpOp>
    requires AllCmps(items)
  {
    seq(|items|, i requires 0 <= i < |items| => items[i].c)
  }

  /** One token of the reader that turns a post-order sequence back into trees; `None` when the
      stack does not hold the token's operands. */
  function Reduce(stack: seq<Item>, tok: Token): Option<seq<Item>> {
    var n := |stack|;
    match tok
    case CmpTok(op) => Some(stack + [Cmp(op)])
    case CompareEnd(o, c) =>
      if n < 1 + c + o then None
      else
        var first, second, third := stack[n - o - c - 1], stack[n - o - c..n - o], stack[n - o..];
        if first.Tree? && AllTrees(second) && AllCmps(third) then
          Some(stack[..n - o - c - 1] + [Tree(Compare(first.t, UnCmps(third), UnTrees(second)))])
        else None
    case ArithTok(op) =>
      if n < 2 || !stack[n - 2].Tree? || !stack[n - 1].Tree? then None
      else Some(stack[..n - 2] + [Tree(Binary(stack[n - 2].t, op, stack[n - 1].t))])
    case JoinTok(op, k) =>
      if n < k || !AllTrees(stack[n - k..]) then None
      else Some(stack[..n - k] + [Tree(Join(op, UnTrees(stack[n - k..])))])
    case UnTok(op) =>
      if n < 1 || !stack[n - 1].Tree? then None
      else Some(stack[..n - 1] + [Tree(Unary(op, stack[n - 1].t))])
    case BoolTok(b, line) => Some(stack + [Tree(BoolConst(b, line))])
    case NumTok(v, line) => Some(stack + [Tree(NumConst(v, line))])
    case OtherTok(s) => Some(stack + [Tree(OtherConst(s))])
    case NodeTok(kind, k) =>
      if n < k || !AllTrees(stack[n - k..]) then None
      else Some(stack[..n - k] + [Tree(Node(kind, UnTrees(stack[n - k..])))])
  }

  function Read(stack: seq<Item>, toks: seq<Token>): Option<seq<Item>> {
    if toks == [] then Some(stack)
    else
      var before := Read(stack, toks[..|toks| - 1]);
      if before.None? then None else Reduce(before.value, toks[|toks| - 1])
  }

  lemma {:induction false} ReadConcat(stack: seq<Item>, a: seq<Token>, b: seq<Token>)
    ensures Read(stack, a + b) ==
            (if Read(stack, a).None? then None else Read(Read(stack, a).value, b))
  {
    if b == [] {
      assert a + b == a;
    } else {
      ReadConcat(stack, a, b[..|b| - 1]);
      assert (a + b)[..|a + b| - 1] == a + b[..|b| - 1];
    }
  }

  lemma ReadThen(stack: seq<Item>, a: seq<Token>, mid: seq<Item>, tok: Token)
    requires Read(stack, a) == Some(mid)
    ensures Read(stack, a + [tok]) == Reduce(mid, tok)
  {
    assert (a + [tok])[..|a|] == a;
  }

  lemma {:induction false} ReadCmps(stack: seq<Item>, ops: seq<CmpOp>)
    ensures Read(stack, CmpTokens(ops)) == Some(stack + Cmps(ops))
  {
    if ops == [] {
      assert CmpTokens(ops) == [];
      assert stack + Cmps(ops) == stack;
    } else {
      var init, last := ops[..|ops| - 1], ops[|ops| - 1];
      ReadCmps(stack, init);
      assert CmpTokens(ops) == CmpTokens(init) + [CmpTok(last)];
      ReadThen(stack, CmpTokens(init), stack + Cmps(init), CmpTok(last));
      assert stack + Cmps(init) + [Cmp(last)] == stack + Cmps(ops);
    }
  }

  lemma ReduceCompare(stack: seq<Item>, left: Expr, ops: seq<CmpOp>, comparators: seq<Expr>)
    ensures Reduce(stack + [Tree(left)] + Trees(comparators) + Cmps(ops), CompareEnd(|ops|, |comparators|))
            == Some(stack + [Tree(Compare(left, ops, comparators))])
  {
    var s3 := stack + [Tree(left)] + Trees(comparators) + Cmps(ops);
    var n, o, c := |s3|, |ops|, |comparators|;
    assert s3[n - o - c - 1] == Tree(left);
    assert s3[n - o - c..n - o] == Trees(comparators);
    assert s3[n - o..] == Cmps(ops);
    assert UnTrees(Trees(comparators)) == comparators;
    assert UnCmps(Cmps(ops)) == ops;
    assert s3[..n - o - c - 1] == stack;
  }

  lemma ReduceTrees(stack: seq<Item>, ts: seq<Expr>, op: JoinOp, kind: string)
    ensures Reduce(stack + Trees(ts), JoinTok(op, |ts|)) == Some(stack + [Tree(Join(op, ts))])
    ensures Reduce(stack + Trees(ts), NodeTok(kind, |ts|)) == Some(stack + [Tree(Node(kind, ts))])
  {
    var mid := stack + Trees(ts);
    assert mid[|mid| - |ts|..] == Trees(ts) && mid[..|mid| - |ts|] == stack;
    assert UnTrees(Trees(ts)) == ts;
  }

  lemma ReduceSmall(stack: seq<Item>, x: Expr, y: Expr, op: ArithOp, un: UnOp)
    ensures Reduce(stack + [Tree(x)] + [Tree(y)], ArithTok(op)) == Some(stack + [Tree(Binary(x, op, y))])
    ensures Reduce(stack + [Tree(x)], UnTok(un)) == Some(stack + [Tree(Unary(un, x))])
  {
    assert (stack + [Tree(x)] + [Tree(y)])[..|stack|] == stack;
    assert (stack + [Tree(x)])[..|stack|] == stack;
  }

  lemma ReadOne(stack: seq<Item>, tok: Token)
    ensures Read(stack, [tok]) == Reduce(stack, tok)
  {
    assert [tok][..0] == [];
  }

  /** Two runs of tokens, one after the other. */
  lemma {:induction false} ReadTwo(stack: seq<Item>, a: seq<Token>, mid: seq<Item>, b: seq<Token>, end: seq<Item>)
    requires Read(stack, a) == Some(mid) && Read(mid, b) == Some(end)
    ensures Read(stack, a + b) == Some(end)
  {
    ReadConcat(stack, a, b);
  }

  /** Reading back what `Tokens` wrote leaves exactly the tree, whatever was on the stack. */
  lemma {:induction false} Rebuild(t: Expr, stack: seq<Item>)
    ensures Read(stack, Tokens(t)) == Some(stack + [Tree(t)])
    decreases t, 1
  {
    match t
    case Compare(left, ops, comparators) =>
      Rebuild(left, stack);
      RebuildAll(comparators, stack + [Tree(left)]);
      RebuildCompare(left, ops, comparators, stack);
    case Binary(lhs, op, rhs) =>
      Rebuild(lhs, stack);
      Rebuild(rhs, stack + [Tree(lhs)]);
      ReadTwo(stack, Tokens(lhs), stack + [Tree(lhs)], Tokens(rhs), stack + [Tree(lhs)] + [Tree(rhs)]);
      ReadThen(stack, Tokens(lhs) + Tokens(rhs), stack + [Tree(lhs)] + [Tree(rhs)], ArithTok(op));
      ReduceSmall(stack, lhs, rhs, op, Not);
    case Join(op, values) =>
      RebuildAll(values, stack);
      ReadThen(stack, AllTokens(values), stack + Trees(values), JoinTok(op, |values|));
      ReduceTrees(stack, values, op, "");
    case Unary(op, operand) =>
      Rebuild(operand, stack);
      ReadThen(stack, Tokens(operand), stack + [Tree(operand)], UnTok(op));
      ReduceSmall(stack, operand, operand, Add, op);
    case BoolConst(b, line) => ReadOne(stack, BoolTok(b, line));
    case NumConst(n, line) => ReadOne(stack, NumTok(n, line));
    case OtherConst(s) => ReadOne(stack, OtherTok(s));
    case Node(kind, children) =>
      RebuildAll(children, stack);
      ReadThen(stack, AllTokens(children), stack + Trees(children), NodeTok(kind, |children|));
      ReduceTrees(stack, children, And, kind);
  }

  lemma {:induction false} RebuildCompare(left: Expr, ops: seq<CmpOp>, comparators: seq<Expr>, stack: seq<Item>)
    requires Read(stack, Tokens(left)) == Some(stack + [Tree(left)])
    requires Read(stack + [Tree(left)], AllTokens(comparators)) == Some(stack + [Tree(left)] + Trees(comparators))
    ensures Read(stack, Tokens(Compare(left, ops, comparators))) ==
            Some(stack + [Tree(Compare(left, ops, comparators))])
  {
    var s1 := stack + [Tree(left)];
    var s2 := s1 + Trees(comparators);
    ReadTwo(stack, Tokens(left), s1, AllTokens(comparators), s2);
    ReadCmps(s2, ops);
    ReadTwo(stack, Tokens(left) + AllTokens(comparators), s2, CmpTokens(ops), s2 + Cmps(ops));
    ReadThen(stack, Tokens(left) + AllTokens(comparators) + CmpTokens(ops), s2 + Cmps(ops),
             CompareEnd(|ops|, |comparators|));
    ReduceCompare(stack, left, ops, comparators);
  }

  lemma {:induction false} RebuildAll(ts: seq<Expr>, stack: seq<Item>)
    ensures Read(stack, AllTokens(ts)) == Some(stack + Trees(ts))
    decreases ts, 0
  {
    if ts == [] {
      assert stack + Trees(ts) == stack;
    } else {
      var init, last := ts[..|ts| - 1], ts[|ts| - 1];
      RebuildAll(init, stack);
      Rebuild(last, stack + Trees(init));
      ReadTwo(stack, AllTokens(init), stack + Trees(init), Tokens(last), stack + Trees(init) + [Tree(last)]);
      OneMoreTree(init, last, stack);
      assert init + [last] == ts;
    }
  }

  lemma OneMoreTree(init: seq<Expr>, last: Expr, stack: seq<Item>)
    ensures stack + Trees(init) + [Tree(last)] == stack + Trees(init + [last])
  {
    assert Trees(init) + [Tree(last)] == Trees(init + [last]);
  }

  lemma {:induction false} TokensInjective(a: Expr, b: Expr)
    requires Tokens(a) == Tokens(b)
    ensures a == b
  {
    Rebuild(a, []);
    Rebuild(b, []);
    assert [Tree(a)] == [] + [Tree(a)] && [Tree(b)] == [] + [Tree(b)];
    assert [Tree(a)][0] == [Tree(b)][0];
  }

  // ----- the transformer -----

  /** What a mutant reports: the token it replaced and what it put there. */
  datatype Applied = Applied(before: Token, after: seq<Token>)

  ghost predicate Reports(toks: seq<Token>, rules: Rules, k: int, was: Option<Applied>, now: Option<Applied>) {
    if 0 <= k < SiteCount(toks, rules) then
      exists p: nat :: SiteAt(toks, rules, k, p) && now == Some(Applied(toks[p], Swapped(toks[p], rules)))
    else now == was
  }

  lemma {:induction false} ReportsConcat(a: seq<Token>, b: seq<Token>, rules: Rules, k: int,
                      r0: Option<Applied>, r1: Option<Applied>, r2: Option<Applied>)
    requires Reports(a, rules, k, r0, r1)
    requires Reports(b, rules, k - SiteCount(a, rules), r1, r2)
    ensures Reports(a + b, rules, k, r0, r2)
  {
    SiteCountConcat(a, b, rules);
    var n := SiteCount(a, rules);
    if 0 <= k < n {
      var p: nat :| SiteAt(a, rules, k, p) && r1 == Some(Applied(a[p], Swapped(a[p], rules)));
      SiteAtConcat(a, b, rules, k, p);
    } else if n <= k < n + SiteCount(b, rules) {
      var p: nat :| SiteAt(b, rules, k - n, p) && r2 == Some(Applied(b[p], Swapped(b[p], rules)));
      SiteAtConcat(a, b, rules, k - n, p);
      assert SiteAt(a + b, rules, k, |a| + p);
    }
  }

  lemma ReportsOne(tok: Token, rules: Rules, k: int, was: Option<Applied>)
    ensures IsSite(tok, rules) && k == 0 ==> Reports([tok], rules, k, was, Some(Applied(tok, Swapped(tok, rules))))
    ensures !(IsSite(tok, rules) && k == 0) ==> Reports([tok], rules, k, was, was)
  {
    MutatedOne(tok, rules, k);
    if IsSite(tok, rules) && k == 0 {
      assert [tok][..0] == [];
      assert SiteAt([tok], rules, k, 0);
    }
  }

  lemma {:induction false} AllTokensSnoc(ts: seq<Expr>, t: Expr)
    ensures AllTokens(ts + [t]) == AllTokens(ts) + Tokens(t)
  {
    assert (ts + [t])[..|ts|] == ts;
  }

  class Mutator {
    const target: int
    const rules: Rules
    var seen: int
    var applied: Option<Applied>

    constructor (target: int, rules: Rules)
      ensures this.target == target && this.rules == rules && seen == -1 && applied == None
    {
      this.target := target;
      this.rules := rules;
      seen := -1;
      applied := None;
    }

    /** Counts one site; true when it is the one to change. */
    method Next() returns (hit: bool)
      modifies this`seen
      ensures seen == old(seen) + 1 && hit == (seen == target)
    {
      seen := seen + 1;
      hit := seen == target;
    }

    /** One visit: the sites counted are the tree's own, the tree returned is mutant number
        `target - seen - 1` of the one given, and the report names that site. */
    method Visit(t: Expr) returns (r: Expr)
      modifies this
      ensures seen == old(seen) + SiteCount(Tokens(t), rules)
      ensures Mutated(Tokens(t), rules, target - old(seen) - 1, Tokens(r))
      ensures Reports(Tokens(t), rules, target - old(seen) - 1, old(applied), applied)
      decreases t, 3
    {
      match t
      case Compare(_, _, _) => r := VisitCompare(t);
      case Binary(_, _, _) => r := VisitBinOp(t);
      case Join(_, _) => r := VisitBoolOp(t);
      case Unary(_, _) => r := VisitUnaryOp(t);
      case Node(_, _) => r := VisitGeneric(t);
      case _ => r := VisitConstant(t);
    }

    method VisitCompare(t: Expr) returns (r: Expr)
      requires t.Compare?
      modifies this
      ensures seen == old(seen) + SiteCount(Tokens(t), rules)
      ensures Mutated(Tokens(t), rules, target - old(seen) - 1, Tokens(r))
      ensures Reports(Tokens(t), rules, target - old(seen) - 1, old(applied), applied)
      decreases t, 2
    {
      ghost var k, was := target - seen - 1, applied;
      ghost var left, rest, ops := Tokens(t.left), AllTokens(t.comparators), CmpTokens(t.ops);
      var left' := Visit(t.left);
      ghost var was1 := applied;
      var comparators' := VisitAll(t.comparators);
      ghost var was2 := applied;
      Visited(left, Tokens(left'), rest, AllTokens(comparators'), k, was, was1, was2);
      var ops' := VisitOps(t.ops);
      Visited(left + rest, Tokens(left') + AllTokens(comparators'), ops, CmpTokens(ops'), k, was, was2, applied);
      r := Compare(left', ops', comparators');
      Tail(left + rest + ops, Tokens(left') + AllTokens(comparators') + CmpTokens(ops'),
           CompareEnd(|t.ops|, |t.comparators|), k, was);
    }

    method VisitBinOp(t: Expr) returns (r: Expr)
      requires t.Binary?
      modifies this
      ensures seen == old(seen) + SiteCount(Tokens(t), rules)
      ensures Mutated(Tokens(t), rules, target - old(seen) - 1, Tokens(r))
      ensures Reports(Tokens(t), rules, target - old(seen) - 1, old(applied), applied)
      decreases t, 2
    {
      ghost var k, was := target - seen - 1, applied;
      ghost var lhs, rhs := Tokens(t.lhs), Tokens(t.rhs);
      var lhs' := Visit(t.lhs);
      ghost var was1 := applied;
      var rhs' := Visit(t.rhs);
      Visited(lhs, Tokens(lhs'), rhs, Tokens(rhs'), k, was, was1, applied);
      LastToken(lhs + rhs, Tokens(lhs') + Tokens(rhs'), ArithTok(t.arith), k, was, applied);
      var swap := SwapArith(t.arith);
      var op', hit := t.arith, false;
      if swap.Some? {
        hit := Next();
      }
      if hit {
        op' := swap.value;
        applied := Some(Applied(ArithTok(t.arith), [ArithTok(op')]));
      }
      r := Binary(lhs', op', rhs');
    }

    method VisitBoolOp(t: Expr) returns (r: Expr)
      requires t.Join?
      modifies this
      ensures seen == old(seen) + SiteCount(Tokens(t), rules)
      ensures Mutated(Tokens(t), rules, target - old(seen) - 1, Tokens(r))
      ensures Reports(Tokens(t), rules, target - old(seen) - 1, old(applied), applied)
      decreases t, 2
    {
      ghost var k, was := target - seen - 1, applied;
      var values' := VisitAll(t.values);
      LastToken(AllTokens(t.values), AllTokens(values'), JoinTok(t.join, |t.values|), k, was, applied);
      var hit := Next();
      var op' := t.join;
      if hit {
        op' := if t.join == And then Or else And;
        applied := Some(Applied(JoinTok(t.join, |t.values|), [JoinTok(op', |t.values|)]));
      }
      r := Join(op', values');
    }

    method VisitUnaryOp(t: Expr) returns (r: Expr)
      requires t.Unary?
      modifies this
      ensures seen == old(seen) + SiteCount(Tokens(t), rules)
      ensures Mutated(Tokens(t), rules, target - old(seen) - 1, Tokens(r))
      ensures Reports(Tokens(t), rules, target - old(seen) - 1, old(applied), applied)
      decreases t, 2
    {
      ghost var k, was := target - seen - 1, applied;
      var operand' := Visit(t.operand);
      LastToken(Tokens(t.operand), Tokens(operand'), UnTok(t.unary), k, was, applied);
      r := Unary(t.unary, operand');
      if t.unary == Not {
        var hit := Next();
        if hit {
          applied := Some(Applied(UnTok(Not), []));
          assert Tokens(operand') + [] == Tokens(operand');
          r := operand';
        }
      }
    }

    method VisitConstant(t: Expr) returns (r: Expr)
      requires t.BoolConst? || t.NumConst? || t.OtherConst?
      modifies this
      ensures seen == old(seen) + SiteCount(Tokens(t), rules)
      ensures Mutated(Tokens(t), rules, target - old(seen) - 1, Tokens(r))
      ensures Reports(Tokens(t), rules, target - old(seen) - 1, old(applied), applied)
      decreases t, 2
    {
      ghost var k := target - seen - 1;
      ghost var tok := Tokens(t)[0];
      assert Tokens(t) == [tok];
      MutatedOne(tok, rules, k);
      ReportsOne(tok, rules, k, applied);
      r := t;
      if t.OtherConst? || t.line in rules.skip {
        return;
      }
      var hit := Next();
      if hit {
        if t.BoolConst? {
          r := BoolConst(!t.flag, t.line);
          applied := Some(Applied(BoolTok(t.flag, t.line), [BoolTok(r.flag, t.line)]));
        } else {
          r := NumConst(Shifted(t.number, rules), t.line);
          applied := Some(Applied(NumTok(t.number, t.line), [NumTok(r.number, t.line)]));
        }
      }
    }

    method VisitGeneric(t: Expr) returns (r: Expr)
      requires t.Node?
      modifies this
      ensures seen == old(seen) + SiteCount(Tokens(t), rules)
      ensures Mutated(Tokens(t), rules, target - old(seen) - 1, Tokens(r))
      ensures Reports(Tokens(t), rules, target - old(seen) - 1, old(applied), applied)
      decreases t, 2
    {
      ghost var k, was := target - seen - 1, applied;
      var children' := VisitAll(t.children);
      r := Node(t.kind, children');
      Tail(AllTokens(t.children), AllTokens(children'), NodeTok(t.kind, |t.children|), k, was);
    }

    /** Two parts visited one after the other. */
    lemma {:induction false} Visited(a: seq<Token>, a': seq<Token>, b: seq<Token>, b': seq<Token>, k: int,
                  was: Option<Applied>, mid: Option<Applied>, now: Option<Applied>)
      requires Mutated(a, rules, k, a') && Reports(a, rules, k, was, mid)
      requires Mutated(b, rules, k - SiteCount(a, rules), b') && Reports(b, rules, k - SiteCount(a, rules), mid, now)
      ensures Mutated(a + b, rules, k, a' + b') && Reports(a + b, rules, k, was, now)
      ensures SiteCount(a + b, rules) == SiteCount(a, rules) + SiteCount(b, rules)
    {
      MutatedConcat(a, a', b, b', rules, k);
      ReportsConcat(a, b, rules, k, was, mid, now);
      SiteCountConcat(a, b, rules);
    }

    /** A trailing token that is never a site. */
    lemma {:induction false} Tail(a: seq<Token>, a': seq<Token>, tok: Token, k: int, was: Option<Applied>)
      requires Mutated(a, rules, k, a') && Reports(a, rules, k, was, applied)
      requires !IsSite(tok, rules)
      ensures Mutated(a + [tok], rules, k, a' + [tok]) && Reports(a + [tok], rules, k, was, applied)
      ensures SiteCount(a + [tok], rules) == SiteCount(a, rules)
    {
      MutatedOne(tok, rules, k - SiteCount(a, rules));
      ReportsOne(tok, rules, k - SiteCount(a, rules), applied);
      MutatedConcat(a, a', [tok], [tok], rules, k);
      ReportsConcat(a, [tok], rules, k, was, applied, applied);
      SiteCountConcat(a, [tok], rules);
    }

    /** A trailing token that may be the site to change. */
    lemma {:induction false} LastToken(a: seq<Token>, a': seq<Token>, tok: Token, k: int, was: Option<Applied>,
                                       mid: Option<Applied>)
      requires Mutated(a, rules, k, a') && Reports(a, rules, k, was, mid)
      ensures SiteCount(a + [tok], rules) == SiteCount(a, rules) + if IsSite(tok, rules) then 1 else 0
      ensures IsSite(tok, rules) && k == SiteCount(a, rules) ==>
                Mutated(a + [tok], rules, k, a' + Swapped(tok, rules))
                && Reports(a + [tok], rules, k, was, Some(Applied(tok, Swapped(tok, rules))))
      ensures !(IsSite(tok, rules) && k == SiteCount(a, rules)) ==>
                Mutated(a + [tok], rules, k, a' + [tok]) && Reports(a + [tok], rules, k, was, mid)
    {
      var k' := k - SiteCount(a, rules);
      MutatedOne(tok, rules, k');
      ReportsOne(tok, rules, k', mid);
      SiteCountConcat(a, [tok], rules);
      if IsSite(tok, rules) && k' == 0 {
        MutatedConcat(a, a', [tok], Swapped(tok, rules), rules, k);
        ReportsConcat(a, [tok], rules, k, was, mid, Some(Applied(tok, Swapped(tok, rules))));
      } else {
        MutatedConcat(a, a', [tok], [tok], rules, k);
        ReportsConcat(a, [tok], rules, k, was, mid, mid);
      }
    }

    method VisitAll(ts: seq<Expr>) returns (rs: seq<Expr>)
      modifies this
      ensures |rs| == |ts|
      ensures seen == old(seen) + SiteCount(AllTokens(ts), rules)
      ensures Mutated(AllTokens(ts), rules, target - old(seen) - 1, AllTokens(rs))
      ensures Reports(AllTokens(ts), rules, target - old(seen) - 1, old(applied), applied)
      decreases ts, 0
    {
      rs := [];
      ghost var k, was, from := target - seen - 1, applied, seen;
      for i := 0 to |ts|
        invariant |rs| == i
        invariant AllSoFar(ts[..i], rs, k, was, from)
      {
        var r := VisitNextChild(ts[i], ts[..i], rs, k, was, from);
        assert ts[..i] + [ts[i]] == ts[..i + 1];
        rs := rs + [r];
      }
      assert ts[..|ts|] == ts;
    }

    /** The children visited so far. */
    ghost predicate AllSoFar(done: seq<Expr>, done': seq<Expr>, k: int, was: Option<Applied>, from: int)
      reads this
    {
      && k == target - from - 1 && seen == from + SiteCount(AllTokens(done), rules)
      && Mutated(AllTokens(done), rules, k, AllTokens(done'))
      && Reports(AllTokens(done), rules, k, was, applied)
    }

    method VisitNextChild(t: Expr, ghost done: seq<Expr>, ghost done': seq<Expr>, ghost k: int,
                          ghost was: Option<Applied>, ghost from: int)
      returns (r: Expr)
      requires AllSoFar(done, done', k, was, from)
      modifies this
      ensures AllSoFar(done + [t], done' + [r], k, was, from)
      decreases t, 4
    {
      ghost var mid := applied;
      r := Visit(t);
      Visited(AllTokens(done), AllTokens(done'), Tokens(t), Tokens(r), k, was, mid, applied);
      AllTokensSnoc(done, t);
      AllTokensSnoc(done', r);
    }

    /** A comparison's operators, each its own site when it has a swap. */
    method VisitOps(ops: seq<CmpOp>) returns (ops': seq<CmpOp>)
      modifies this
      ensures |ops'| == |ops|
      ensures seen == old(seen) + SiteCount(CmpTokens(ops), rules)
      ensures Mutated(CmpTokens(ops), rules, target - old(seen) - 1, CmpTokens(ops'))
      ensures Reports(CmpTokens(ops), rules, target - old(seen) - 1, old(applied), applied)
    {
      ops' := [];
      ghost var k, was, from := target - seen - 1, applied, seen;
      assert CmpTokens(ops[..0]) == [] == CmpTokens(ops');
      for i := 0 to |ops|
        invariant |ops'| == i
        invariant OpsSoFar(ops[..i], ops', k, was, from)
      {
        var op := VisitNextOp(ops[i], ops[..i], ops', k, was, from);
        assert ops[..i] + [ops[i]] == ops[..i + 1];
        ops' := ops' + [op];
      }
      assert ops[..|ops|] == ops;
    }

    /** The operators visited so far. */
    ghost predicate OpsSoFar(done: seq<CmpOp>, done': seq<CmpOp>, k: int, was: Option<Applied>, from: int)
      reads this
    {
      && k == target - from - 1 && seen == from + SiteCount(CmpTokens(done), rules)
      && Mutated(CmpTokens(done), rules, k, CmpTokens(done'))
      && Reports(CmpTokens(done), rules, k, was, applied)
    }

    method VisitNextOp(op: CmpOp, ghost done: seq<CmpOp>, ghost done': seq<CmpOp>, ghost k: int,
                       ghost was: Option<Applied>, ghost from: int)
      returns (op': CmpOp)
      requires OpsSoFar(done, done', k, was, from)
      modifies this
      ensures OpsSoFar(done + [op], done' + [op'], k, was, from)
    {
      ghost var mid := applied;
      op' := VisitOp(op);
      OpStep(done, done', op, op', k, was, mid);
    }

    /** One operator more, visited. */
    lemma OpStep(done: seq<CmpOp>, done': seq<CmpOp>, op: CmpOp, op': CmpOp, k: int, was: Option<Applied>,
                 mid: Option<Applied>)
      requires Mutated(CmpTokens(done), rules, k, CmpTokens(done')) && Reports(CmpTokens(done), rules, k, was, mid)
      requires if IsSite(CmpTok(op), rules) && k == SiteCount(CmpTokens(done), rules)
               then [CmpTok(op')] == Swapped(CmpTok(op), rules) && applied == Some(Applied(CmpTok(op), [CmpTok(op')]))
               else op' == op && applied == mid
      ensures SiteCount(CmpTokens(done + [op]), rules)
          == SiteCount(CmpTokens(done), rules) + if IsSite(CmpTok(op), rules) then 1 else 0
      ensures Mutated(CmpTokens(done + [op]), rules, k, CmpTokens(done' + [op']))
      ensures Reports(CmpTokens(done + [op]), rules, k, was, applied)
    {
      LastToken(CmpTokens(done), CmpTokens(done'), CmpTok(op), k, was, mid);
      OneMoreOp(done, op);
      OneMoreOp(done', op');
    }

    lemma OneMoreOp(ops: seq<CmpOp>, op: CmpOp)
      ensures CmpTokens(ops + [op]) == CmpTokens(ops) + [CmpTok(op)]
    {
    }

    method VisitOp(op: CmpOp) returns (op': CmpOp)
      modifies this
      ensures seen == old(seen) + if IsSite(CmpTok(op), rules) then 1 else 0
      ensures if IsSite(CmpTok(op), rules) && seen == target
              then [CmpTok(op')] == Swapped(CmpTok(op), rules) && applied == Some(Applied(CmpTok(op), [CmpTok(op')]))
              else op' == op && applied == old(applied)
    {
      op' := op;
      var swap := SwapCmp(op);
      if swap.Some? {
        var hit := Next();
        if hit {
          op' := swap.value;
          applied := Some(Applied(CmpTok(op), [CmpTok(op')]));
        }
      }
    }
  }
}
