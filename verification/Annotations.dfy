/** What the mutation harness does inside one child of a construct it has no rule for, such as a type
    annotation or the list assigned to `__all__` (decile-blueprint/tools/mutation.py). */
module Annotations {
  import opened Options
  import opened MutationSites
  import opened Mutants

  // ----- every ordinal has a tree -----

  /** The tree that mutation number `k` gives; the same tree when there is no such site. */
  lemma {:induction false} MutantOf(t: Expr, rules: Rules, k: int) returns (r: Expr)
    ensures Mutated(Tokens(t), rules, k, Tokens(r))
    decreases t, 1
  {
    match t
    case Compare(left, ops, comparators) =>
      var x := MutantOf(left, rules, k);
      var n := SiteCount(Tokens(left), rules);
      var y := MutantsOf(comparators, rules, k - n);
      var z := OpsOf(ops, rules, k - n - SiteCount(AllTokens(comparators), rules));
      r := CompareMutant(t, x, y, z, rules, k);
    case Binary(lhs, op, rhs) =>
      var x := MutantOf(lhs, rules, k);
      var y := MutantOf(rhs, rules, k - SiteCount(Tokens(lhs), rules));
      r := BinaryMutant(t, x, y, rules, k);
    case Join(_, values) =>
      var x := MutantsOf(values, rules, k);
      r := JoinMutant(t, x, rules, k);
    case Unary(_, operand) =>
      var x := MutantOf(operand, rules, k);
      r := UnaryMutant(t, x, rules, k);
    case Node(_, children) =>
      var x := MutantsOf(children, rules, k);
      r := NodeMutant(t, x, rules, k);
    case _ => r := ConstantMutant(t, rules, k);
  }

  lemma ConstantMutant(t: Expr, rules: Rules, k: int) returns (r: Expr)
    requires t.BoolConst? || t.NumConst? || t.OtherConst?
    ensures Mutated(Tokens(t), rules, k, Tokens(r))
  {
    r := t;
    MutatedOne(Tokens(t)[0], rules, k);
    assert Tokens(t) == [Tokens(t)[0]];
    if !t.OtherConst? && t.line !in rules.skip && k == 0 {
      r := if t.BoolConst? then BoolConst(!t.flag, t.line) else NumConst(Shifted(t.number, rules), t.line);
    }
  }

  lemma BinaryMutant(t: Expr, x: Expr, y: Expr, rules: Rules, k: int) returns (r: Expr)
    requires t.Binary? && Mutated(Tokens(t.lhs), rules, k, Tokens(x))
    requires Mutated(Tokens(t.rhs), rules, k - SiteCount(Tokens(t.lhs), rules), Tokens(y))
    ensures Mutated(Tokens(t), rules, k, Tokens(r))
  {
    var a, b := Tokens(t.lhs), Tokens(t.rhs);
    var hit := SwapArith(t.arith).Some? && k == SiteCount(a + b, rules);
    r := Binary(x, if hit then SwapArith(t.arith).value else t.arith, y);
    MutatedConcat(a, Tokens(x), b, Tokens(y), rules, k);
    Last(a + b, Tokens(x) + Tokens(y), ArithTok(t.arith), rules, k);
  }

  lemma JoinMutant(t: Expr, x: seq<Expr>, rules: Rules, k: int) returns (r: Expr)
    requires t.Join? && |x| == |t.values| && Mutated(AllTokens(t.values), rules, k, AllTokens(x))
    ensures Mutated(Tokens(t), rules, k, Tokens(r))
  {
    var a, a', tok := AllTokens(t.values), AllTokens(x), JoinTok(t.join, |t.values|);
    assert Tokens(t) == a + [tok];
    Last(a, a', tok, rules, k);
    if k == SiteCount(a, rules) {
      r := Join(if t.join == And then Or else And, x);
      assert Tokens(r) == a' + Swapped(tok, rules);
    } else {
      r := Join(t.join, x);
      assert Tokens(r) == a' + [tok];
    }
  }

  lemma UnaryMutant(t: Expr, x: Expr, rules: Rules, k: int) returns (r: Expr)
    requires t.Unary? && Mutated(Tokens(t.operand), rules, k, Tokens(x))
    ensures Mutated(Tokens(t), rules, k, Tokens(r))
  {
    var a, a', tok := Tokens(t.operand), Tokens(x), UnTok(t.unary);
    assert Tokens(t) == a + [tok];
    Last(a, a', tok, rules, k);
    if t.unary == Not && k == SiteCount(a, rules) {
      r := x;
      assert Tokens(r) == a' + Swapped(tok, rules);
    } else {
      r := Unary(t.unary, x);
      assert Tokens(r) == a' + [tok];
    }
  }

  lemma NodeMutant(t: Expr, x: seq<Expr>, rules: Rules, k: int) returns (r: Expr)
    requires t.Node? && |x| == |t.children| && Mutated(AllTokens(t.children), rules, k, AllTokens(x))
    ensures Mutated(Tokens(t), rules, k, Tokens(r))
  {
    r := Node(t.kind, x);
    Last(AllTokens(t.children), AllTokens(x), NodeTok(t.kind, |x|), rules, k);
  }

  lemma CompareMutant(t: Expr, x: Expr, y: seq<Expr>, z: seq<CmpOp>, rules: Rules, k: int) returns (r: Expr)
    requires t.Compare? && |z| == |t.ops| && |y| == |t.comparators|
    requires Mutated(Tokens(t.left), rules, k, Tokens(x))
    requires var n := SiteCount(Tokens(t.left), rules);
             && Mutated(AllTokens(t.comparators), rules, k - n, AllTokens(y))
             && Mutated(CmpTokens(t.ops), rules, k - n - SiteCount(AllTokens(t.comparators), rules), CmpTokens(z))
    ensures Mutated(Tokens(t), rules, k, Tokens(r))
  {
    var a, b, c := Tokens(t.left), AllTokens(t.comparators), CmpTokens(t.ops);
    var a', b', c' := Tokens(x), AllTokens(y), CmpTokens(z);
    MutatedConcat(a, a', b, b', rules, k);
    SiteCountConcat(a, b, rules);
    MutatedConcat(a + b, a' + b', c, c', rules, k);
    Last(a + b + c, a' + b' + c', CompareEnd(|z|, |y|), rules, k);
    r := Compare(x, z, y);
  }

  lemma {:induction false} MutantsOf(ts: seq<Expr>, rules: Rules, k: int) returns (rs: seq<Expr>)
    ensures |rs| == |ts| && Mutated(AllTokens(ts), rules, k, AllTokens(rs))
    decreases ts, 0
  {
    if ts == [] {
      rs := [];
    } else {
      var front, last := ts[..|ts| - 1], ts[|ts| - 1];
      var xs := MutantsOf(front, rules, k);
      var x := MutantOf(last, rules, k - SiteCount(AllTokens(front), rules));
      MutatedConcat(AllTokens(front), AllTokens(xs), Tokens(last), Tokens(x), rules, k);
      assert (xs + [x])[..|xs|] == xs;
      rs := xs + [x];
    }
  }

  lemma {:induction false} OpsOf(ops: seq<CmpOp>, rules: Rules, k: int) returns (rs: seq<CmpOp>)
    ensures |rs| == |ops| && Mutated(CmpTokens(ops), rules, k, CmpTokens(rs))
  {
    if ops == [] {
      rs := [];
    } else {
      var front, op := ops[..|ops| - 1], ops[|ops| - 1];
      var xs := OpsOf(front, rules, k);
      var x := if SwapCmp(op).Some? && k == SiteCount(CmpTokens(front), rules) then SwapCmp(op).value else op;
      Last(CmpTokens(front), CmpTokens(xs), CmpTok(op), rules, k);
      OneMore(front, op);
      OneMore(xs, x);
      assert ops == front + [op];
      rs := xs + [x];
    }
  }

  lemma OneMore(ops: seq<CmpOp>, op: CmpOp)
    ensures CmpTokens(ops + [op]) == CmpTokens(ops) + [CmpTok(op)]
  {
  }

  /** A last token, changed when it is site number `k`. */
  lemma {:induction false} Last(a: seq<Token>, a': seq<Token>, tok: Token, rules: Rules, k: int)
    requires Mutated(a, rules, k, a')
    ensures Mutated(a + [tok], rules, k,
                    a' + if IsSite(tok, rules) && k == SiteCount(a, rules) then Swapped(tok, rules) else [tok])
  {
    var k' := k - SiteCount(a, rules);
    MutatedOne(tok, rules, k');
    MutatedConcat(a, a', [tok], if IsSite(tok, rules) && k' == 0 then Swapped(tok, rules) else [tok], rules, k);
  }

  // ----- one child -----

  lemma {:induction false} AllTokensConcat(a: seq<Expr>, b: seq<Expr>)
    ensures AllTokens(a + b) == AllTokens(a) + AllTokens(b)
  {
    if b == [] {
      assert a + b == a;
    } else {
      var front, last := b[..|b| - 1], b[|b| - 1];
      AllTokensConcat(a, front);
      AllTokensSnoc(a + front, last);
      assert a + front + [last] == a + b;
      Associates(AllTokens(a), AllTokens(front), Tokens(last));
    }
  }

  lemma Associates(a: seq<Token>, b: seq<Token>, c: seq<Token>)
    ensures a + b + c == a + (b + c)
  {
  }

  /** A construct's tokens around child `c`. */
  lemma Around(kind: string, children: seq<Expr>, c: nat, x: Expr)
    requires c < |children|
    ensures Tokens(Node(kind, children[c := x]))
         == AllTokens(children[..c]) + Tokens(x) + (AllTokens(children[c + 1..]) + [NodeTok(kind, |children|)])
  {
    var all := children[c := x];
    assert all == children[..c] + [x] + children[c + 1..];
    AllTokensConcat(children[..c] + [x], children[c + 1..]);
    AllTokensSnoc(children[..c], x);
  }

  /** A mutation of the middle is one of the whole. */
  lemma {:induction false} MutatedInside(left: seq<Token>, mine: seq<Token>, mine': seq<Token>, right: seq<Token>,
                                         rules: Rules, k: nat)
    requires k < SiteCount(mine, rules) && Mutated(mine, rules, k, mine')
    ensures SiteCount(left, rules) + k < SiteCount(left + mine + right, rules)
    ensures Mutated(left + mine + right, rules, SiteCount(left, rules) + k, left + mine' + right)
  {
    var n := SiteCount(left, rules);
    SiteCountConcat(left, mine, rules);
    SiteCountConcat(left + mine, right, rules);
    MutatedConcat(left, left, mine, mine', rules, n + k);
    MutatedConcat(left + mine, left + mine', right, right, rules, n + k);
  }

  /** Mutation `k` of the child is mutation `k`, past the sites before it, of the construct. */
  lemma {:induction false} ChildMutant(kind: string, children: seq<Expr>, c: nat, rules: Rules, k: nat, x: Expr)
    requires c < |children| && IsMutant(children[c], rules, k, x)
    ensures IsMutant(Node(kind, children), rules, SiteCount(AllTokens(children[..c]), rules) + k,
        Node(kind, children[c := x]))
  {
    Around(kind, children, c, x);
    Around(kind, children, c, children[c]);
    assert children[c := children[c]] == children;
    MutatedInside(AllTokens(children[..c]), Tokens(children[c]), Tokens(x),
                  AllTokens(children[c + 1..]) + [NodeTok(kind, |children|)], rules, k);
  }

  /** Mutant `i` of the construct is its child `c` mutated and the rest as it was. */
  ghost predicate InChild(kind: string, children: seq<Expr>, c: nat, rules: Rules, i: nat, r: Expr)
    requires c < |children|
  {
    IsMutant(Node(kind, children), rules, i, r)
    && exists k: nat, x :: IsMutant(children[c], rules, k, x) && r == Node(kind, children[c := x])
  }

  /** And it is not the construct over again. */
  ghost predicate ChangesChild(kind: string, children: seq<Expr>, c: nat, rules: Rules, i: nat, r: Expr)
    requires c < |children|
  {
    InChild(kind, children, c, rules, i, r) && r != Node(kind, children)
  }

  /** Some site that its swap changes: any but a double that adding one gives back. */
  ghost predicate HasMovingSite(toks: seq<Token>, rules: Rules) {
    exists p: nat :: p < |toks| && IsSite(toks[p], rules) && !Unmoved(toks[p], rules)
  }

  /** Some mutant of a construct changes a given child exactly when the child has such a site: an annotation is
      mutated whenever an integer, a boolean or an operator with a swap is written in it. */
  lemma {:induction false} AnnotationMutated(kind: string, children: seq<Expr>, c: nat, rules: Rules)
    requires c < |children|
    ensures (exists i: nat, r :: ChangesChild(kind, children, c, rules, i, r))
       <==> HasMovingSite(Tokens(children[c]), rules)
  {
    if HasMovingSite(Tokens(children[c]), rules) {
      var i, r := MovedChild(kind, children, c, rules);
    }
    forall i: nat, r | ChangesChild(kind, children, c, rules, i, r)
      ensures HasMovingSite(Tokens(children[c]), rules)
    {
      var k: nat, x :| IsMutant(children[c], rules, k, x) && r == Node(kind, children[c := x]);
      SameChild(kind, children, c, x);
      var p := Witness(children[c], rules, k, x);
      MutantDiffers(children[c], rules, k, p, x);
    }
  }

  /** The construct is as it was just when the child is. */
  lemma {:induction false} SameChild(kind: string, children: seq<Expr>, c: nat, x: Expr)
    requires c < |children|
    ensures Node(kind, children[c := x]) == Node(kind, children) <==> x == children[c]
  {
    var after := children[c := x];
    assert after[c] == x;
    assert x == children[c] ==> after == children;
  }

  lemma {:induction false} MutantAt(t: Expr, rules: Rules, k: nat, p: nat) returns (x: Expr)
    requires SiteAt(Tokens(t), rules, k, p)
    ensures IsMutant(t, rules, k, x)
  {
    SitesBefore(Tokens(t), rules, p, |Tokens(t)|);
    assert Tokens(t)[..|Tokens(t)|] == Tokens(t);
    x := MutantOf(t, rules, k);
  }

  /** The mutant that a moving site gives. */
  lemma {:induction false} MovedMutant(t: Expr, rules: Rules) returns (k: nat, x: Expr)
    requires HasMovingSite(Tokens(t), rules)
    ensures IsMutant(t, rules, k, x) && x != t
  {
    var toks := Tokens(t);
    var p: nat :| p < |toks| && IsSite(toks[p], rules) && !Unmoved(toks[p], rules);
    k := SiteCount(toks[..p], rules);
    x := MutantAt(t, rules, k, p);
    MutantDiffers(t, rules, k, p, x);
  }

  lemma {:induction false} MovedChild(kind: string, children: seq<Expr>, c: nat, rules: Rules) returns (i: nat, r: Expr)
    requires c < |children| && HasMovingSite(Tokens(children[c]), rules)
    ensures ChangesChild(kind, children, c, rules, i, r)
  {
    var k, x := MovedMutant(children[c], rules);
    ChildMutant(kind, children, c, rules, k, x);
    SameChild(kind, children, c, x);
    i, r := SiteCount(AllTokens(children[..c]), rules) + k, Node(kind, children[c := x]);
  }

  /** Which mutants they are: those whose ordinal falls among the child's own, unless that site does not move. */
  lemma {:induction false} MutantsOfChild(kind: string, children: seq<Expr>, c: nat, rules: Rules, i: nat, r: Expr,
                                          p: nat)
    requires c < |children| && IsMutant(Node(kind, children), rules, i, r)
    requires SiteCount(AllTokens(children[..c]), rules) <= i
    requires SiteAt(Tokens(children[c]), rules, i - SiteCount(AllTokens(children[..c]), rules), p)
    ensures InChild(kind, children, c, rules, i, r)
    ensures ChangesChild(kind, children, c, rules, i, r) <==> !Unmoved(Tokens(children[c])[p], rules)
  {
    var k := i - SiteCount(AllTokens(children[..c]), rules);
    var x := MutantAt(children[c], rules, k, p);
    ChildMutant(kind, children, c, rules, k, x);
    OneMutant(Node(kind, children), rules, i, r, Node(kind, children[c := x]));
    MutantDiffers(children[c], rules, k, p, x);
    SameChild(kind, children, c, x);
  }

  /** An ordinal has one mutant. */
  lemma OneMutant(t: Expr, rules: Rules, i: nat, r: Expr, s: Expr)
    requires IsMutant(t, rules, i, r) && IsMutant(t, rules, i, s)
    ensures r == s
  {
    var p := Witness(t, rules, i, r);
    var q := Witness(t, rules, i, s);
    SiteAtUnique(Tokens(t), rules, i, p, q);
    TokensInjective(r, s);
  }

  predicate AllStrings(ts: seq<Expr>) {
    ts == [] || (ts[|ts| - 1].OtherConst? && AllStrings(ts[..|ts| - 1]))
  }

  /** A list of strings, as `__all__` is, has no site, so no mutant changes it. */
  lemma {:induction false} StringsHaveNoSite(strings: seq<Expr>, kind: string, rules: Rules)
    requires AllStrings(strings)
    ensures SiteCount(Tokens(Node(kind, strings)), rules) == 0
  {
    StringTokens(strings, rules);
    NoSiteMore(AllTokens(strings), NodeTok(kind, |strings|), rules);
    assert Tokens(Node(kind, strings)) == AllTokens(strings) + [NodeTok(kind, |strings|)];
  }

  lemma {:induction false} StringTokens(strings: seq<Expr>, rules: Rules)
    requires AllStrings(strings)
    ensures SiteCount(AllTokens(strings), rules) == 0
  {
    if strings != [] {
      var front, text := strings[..|strings| - 1], strings[|strings| - 1].text;
      StringTokens(front, rules);
      NoSiteMore(AllTokens(front), OtherTok(text), rules);
      assert AllTokens(strings) == AllTokens(front) + [OtherTok(text)];
    }
  }

  lemma {:induction false} NoSiteMore(a: seq<Token>, tok: Token, rules: Rules)
    requires SiteCount(a, rules) == 0 && !IsSite(tok, rules)
    ensures SiteCount(a + [tok], rules) == 0
  {
    assert (a + [tok])[..|a|] == a;
  }
}
