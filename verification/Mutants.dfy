/** The mutants of one file (`generate`, decile-blueprint/tools/mutation.py): one per site, each
    reported, and the laws between a tree, its mutants and their mutants. */
module Mutants {
  import opened Options
  import opened MutationSites

  datatype Mutant = Mutant(report: Applied, tree: Expr)

  /** `m` is mutant number `i` of `t`: exactly site `i` in post-order is swapped, and said so. */
  ghost predicate IsMutant(t: Expr, rules: Rules, i: nat, r: Expr) {
    i < SiteCount(Tokens(t), rules) && Mutated(Tokens(t), rules, i, Tokens(r))
  }

  /** Mutant `i` of the file, reported as the site it changed. */
  ghost predicate Generated(t: Expr, rules: Rules, i: nat, m: Mutant) {
    IsMutant(t, rules, i, m.tree) && Reports(Tokens(t), rules, i, None, Some(m.report))
  }

  /** Every mutant of a file, in site order. The source's `applied is None` skip is the `None` arm;
      the loop invariant shows it is never taken, so no site is lost. */
  method Generate(t: Expr, rules: Rules) returns (mutants: seq<Mutant>)
    ensures |mutants| == SiteCount(Tokens(t), rules)
    ensures forall i :: 0 <= i < |mutants| ==> Generated(t, rules, i, mutants[i])
  {
    var counter := new Mutator(-1, rules);
    var _ := counter.Visit(t);
    var total := counter.seen + 1;
    mutants := [];
    for index := 0 to total
      invariant |mutants| == index
      invariant forall i :: 0 <= i < index ==> Generated(t, rules, i, mutants[i])
    {
      var applied, mutated := MutateAt(t, rules, index);
      if applied.Some? {
        mutants := mutants + [Mutant(applied.value, mutated)];
      }
    }
  }

  /** One transformer, aimed at one site. */
  method MutateAt(t: Expr, rules: Rules, index: nat) returns (applied: Option<Applied>, mutated: Expr)
    requires index < SiteCount(Tokens(t), rules)
    ensures applied.Some? && Generated(t, rules, index, Mutant(applied.value, mutated))
  {
    var mutator := new Mutator(index, rules);
    mutated := mutator.Visit(t);
    applied := mutator.applied;
  }

  /** The site a mutant changed, and the tokens before and after it. */
  lemma Witness(t: Expr, rules: Rules, i: nat, r: Expr) returns (p: nat)
    requires IsMutant(t, rules, i, r)
    ensures SiteAt(Tokens(t), rules, i, p)
    ensures Tokens(r) == Splice(Tokens(t), p, Swapped(Tokens(t)[p], rules))
  {
    p :| SiteAt(Tokens(t), rules, i, p) && Tokens(r) == Splice(Tokens(t), p, Swapped(Tokens(t)[p], rules));
  }

  /** Replacing one token by one: length, place and the two sides. */
  lemma SpliceOne(a: seq<Token>, p: nat, x: Token)
    requires p < |a|
    ensures |Splice(a, p, [x])| == |a| && Splice(a, p, [x])[p] == x
    ensures Splice(a, p, [x])[..p] == a[..p] && Splice(a, p, [x])[p + 1..] == a[p + 1..]
    ensures forall m :: Splice(Splice(a, p, [x]), p, m) == Splice(a, p, m)
    ensures Splice(a, p, [a[p]]) == a
  {
  }

  lemma SpliceNone(a: seq<Token>, p: nat)
    requires p < |a|
    ensures |Splice(a, p, [])| == |a| - 1
  {
  }

  /** The site is a double that the shift leaves as it is. */
  predicate Unmoved(tok: Token, rules: Rules) {
    tok.NumTok? && Absorbs(tok.number, rules)
  }

  /** A mutant is the original tree exactly when its site is such a double; never for an integer. */
  lemma {:induction false} MutantDiffers(t: Expr, rules: Rules, i: nat, p: nat, r: Expr)
    requires IsMutant(t, rules, i, r) && SiteAt(Tokens(t), rules, i, p)
    ensures r == t <==> Unmoved(Tokens(t)[p], rules)
  {
    var q := Witness(t, rules, i, r);
    SiteAtUnique(Tokens(t), rules, i, p, q);
    SwapChanges(Tokens(t), rules, p);
    if Unmoved(Tokens(t)[p], rules) {
      TokensInjective(r, t);
    }
  }

  lemma SwapChanges(toks: seq<Token>, rules: Rules, p: nat)
    requires p < |toks| && IsSite(toks[p], rules)
    ensures Splice(toks, p, Swapped(toks[p], rules)) == toks <==> Unmoved(toks[p], rules)
    ensures |Splice(toks, p, Swapped(toks[p], rules))| == |toks| - if toks[p] == UnTok(Not) then 1 else 0
  {
    if toks[p] == UnTok(Not) {
      SpliceNone(toks, p);
    } else {
      SwapOnce(toks[p], rules);
      SpliceOne(toks, p, Swapped(toks[p], rules)[0]);
      assert Swapped(toks[p], rules) == [Swapped(toks[p], rules)[0]];
    }
  }

  /** Swaps that are their own inverse: everything but a number that moves and a removed `not`. */
  predicate SelfInverse(tok: Token, rules: Rules) {
    (tok.NumTok? ==> Absorbs(tok.number, rules)) && tok != UnTok(Not)
  }

  lemma SwapOnce(tok: Token, rules: Rules)
    requires IsSite(tok, rules) && tok != UnTok(Not)
    ensures |Swapped(tok, rules)| == 1 && IsSite(Swapped(tok, rules)[0], rules)
    ensures Swapped(tok, rules) == [tok] <==> Unmoved(tok, rules)
  {
  }

  lemma SwapTwice(tok: Token, rules: Rules)
    requires Grows(rules) && IsSite(tok, rules) && tok != UnTok(Not)
    ensures |Swapped(tok, rules)| == 1 && IsSite(Swapped(tok, rules)[0], rules)
    ensures Swapped(Swapped(tok, rules)[0], rules) == [tok] <==> SelfInverse(tok, rules)
  {
    if tok.NumTok? && tok.number.Double? {
      assert tok.number.bits <= rules.plusOne(tok.number.bits) <= rules.plusOne(rules.plusOne(tok.number.bits));
    }
  }

  /** Mutating a mutant again at the same site gives the original back exactly when the site is a
      comparison, an arithmetic operator, an and/or, a boolean, or a double that does not move. */
  lemma {:induction false} Undo(t: Expr, rules: Rules, i: nat, p: nat, r: Expr, r2: Expr)
    requires Grows(rules) && IsMutant(t, rules, i, r) && SiteAt(Tokens(t), rules, i, p)
    requires IsMutant(r, rules, i, r2)
    ensures r2 == t <==> SelfInverse(Tokens(t)[p], rules)
  {
    var p1 := Witness(t, rules, i, r);
    SiteAtUnique(Tokens(t), rules, i, p, p1);
    var q := Witness(r, rules, i, r2);
    if Tokens(t)[p] == UnTok(Not) {
      DroppedTwice(Tokens(t), rules, p, Tokens(r), q, Tokens(r2));
    } else {
      UndoTokens(Tokens(t), rules, i, p, Tokens(r), q);
      if SelfInverse(Tokens(t)[p], rules) {
        TokensInjective(r2, t);
      }
    }
  }

  /** A removed `not` never comes back. */
  lemma DroppedTwice(before: seq<Token>, rules: Rules, p: nat, after: seq<Token>, q: nat, again: seq<Token>)
    requires p < |before| && before[p] == UnTok(Not) && after == Splice(before, p, Swapped(before[p], rules))
    requires q < |after| && IsSite(after[q], rules) && again == Splice(after, q, Swapped(after[q], rules))
    ensures again != before
  {
    SwapChanges(before, rules, p);
    SwapChanges(after, rules, q);
    assert |again| < |before|;
  }

  lemma UndoTokens(before: seq<Token>, rules: Rules, i: nat, p: nat, after: seq<Token>, q: nat)
    requires Grows(rules) && SiteAt(before, rules, i, p) && before[p] != UnTok(Not)
    requires after == Splice(before, p, Swapped(before[p], rules))
    requires SiteAt(after, rules, i, q)
    ensures Splice(after, q, Swapped(after[q], rules)) == before <==> SelfInverse(before[p], rules)
  {
    var tok := before[p];
    SwapTwice(tok, rules);
    var tok' := Swapped(tok, rules)[0];
    assert Swapped(tok, rules) == [tok'];
    SpliceOne(before, p, tok');
    assert SiteAt(after, rules, i, p);
    SiteAtUnique(after, rules, i, p, q);
    var back := Swapped(tok', rules);
    SwapTwice(tok', rules);
    assert back == [back[0]];
    SpliceOne(before, p, back[0]);
    SpliceOne(before, p, tok);
  }

  /** For a self-inverse site the second mutation always exists: the site count does not move. */
  lemma {:induction false} CountKept(t: Expr, rules: Rules, i: nat, r: Expr)
    requires IsMutant(t, rules, i, r)
    ensures SiteCount(Tokens(r), rules) ==
            SiteCount(Tokens(t), rules) - if |Tokens(r)| == |Tokens(t)| then 0 else 1
  {
    var p := Witness(t, rules, i, r);
    CountKeptTokens(Tokens(t), rules, p);
  }

  lemma CountKeptTokens(toks: seq<Token>, rules: Rules, p: nat)
    requires p < |toks| && IsSite(toks[p], rules)
    ensures var after := Splice(toks, p, Swapped(toks[p], rules));
            SiteCount(after, rules) == SiteCount(toks, rules) - if |after| == |toks| then 0 else 1
  {
    CountWith(toks, rules, p, Swapped(toks[p], rules));
    SwapCount(toks[p], rules);
    SwapChanges(toks, rules, p);
  }

  lemma {:induction false} CountWith(toks: seq<Token>, rules: Rules, p: nat, mid: seq<Token>)
    requires p < |toks|
    ensures SiteCount(Splice(toks, p, mid), rules)
        == SiteCount(toks, rules) - SiteCount([toks[p]], rules) + SiteCount(mid, rules)
  {
    SiteCountSplice(toks, p, [toks[p]], rules);
    SiteCountSplice(toks, p, mid, rules);
    assert Splice(toks, p, [toks[p]]) == toks;
  }

  /** A swapped site is a site again, unless it is gone. */
  lemma SwapCount(tok: Token, rules: Rules)
    requires IsSite(tok, rules)
    ensures SiteCount([tok], rules) == 1
    ensures SiteCount(Swapped(tok, rules), rules) == if tok == UnTok(Not) then 0 else 1
  {
    MutatedOne(tok, rules, 0);
    if tok != UnTok(Not) {
      SwapOnce(tok, rules);
      MutatedOne(Swapped(tok, rules)[0], rules, 0);
      assert Swapped(tok, rules) == [Swapped(tok, rules)[0]];
    }
  }

  lemma SiteCountSplice(toks: seq<Token>, p: nat, mid: seq<Token>, rules: Rules)
    requires p < |toks|
    ensures SiteCount(Splice(toks, p, mid), rules)
         == SiteCount(toks[..p], rules) + SiteCount(mid, rules) + SiteCount(toks[p + 1..], rules)
  {
    SiteCountConcat(toks[..p] + mid, toks[p + 1..], rules);
    SiteCountConcat(toks[..p], mid, rules);
  }

  /** Two mutants of one file are the same tree only for a run of `not not ... not`, where dropping any
      one of them leaves the same expression, and for two doubles that do not move. */
  lemma {:induction false} Collide(t: Expr, rules: Rules, i: nat, p: nat, r: Expr, j: nat, q: nat, s: Expr)
    requires i < j
    requires IsMutant(t, rules, i, r) && SiteAt(Tokens(t), rules, i, p)
    requires IsMutant(t, rules, j, s) && SiteAt(Tokens(t), rules, j, q)
    ensures p < q
    ensures r == s <==> AllNots(Tokens(t), p, q) || (Unmoved(Tokens(t)[p], rules) && Unmoved(Tokens(t)[q], rules))
  {
    var toks := Tokens(t);
    var p' := Witness(t, rules, i, r);
    var q' := Witness(t, rules, j, s);
    SiteAtUnique(toks, rules, i, p, p');
    SiteAtUnique(toks, rules, j, q, q');
    if q < p {
      SitesBefore(toks, rules, q, p);
    }
    CollideTokens(toks, rules, p, q);
    if Tokens(r) == Tokens(s) {
      TokensInjective(r, s);
    }
  }

  predicate AllNots(toks: seq<Token>, p: nat, q: nat)
    requires q < |toks|
  {
    forall k :: p <= k <= q ==> toks[k] == UnTok(Not)
  }

  lemma CollideTokens(toks: seq<Token>, rules: Rules, p: nat, q: nat)
    requires p < q < |toks| && IsSite(toks[p], rules) && IsSite(toks[q], rules)
    ensures Splice(toks, p, Swapped(toks[p], rules)) == Splice(toks, q, Swapped(toks[q], rules))
            <==> AllNots(toks, p, q) || (Unmoved(toks[p], rules) && Unmoved(toks[q], rules))
  {
    SwapChanges(toks, rules, p);
    SwapChanges(toks, rules, q);
    if toks[p] == UnTok(Not) && toks[q] == UnTok(Not) {
      DropEither(toks, p, q);
      if Splice(toks, p, []) == Splice(toks, q, []) {
        forall k | p <= k <= q ensures toks[k] == UnTok(Not) {
          RunOfEqual(toks, p, k);
        }
      }
    } else if toks[p] != UnTok(Not) && toks[q] != UnTok(Not) {
      SwapOnce(toks[p], rules);
      assert Swapped(toks[p], rules) == [Swapped(toks[p], rules)[0]];
      SpliceOne(toks, p, Swapped(toks[p], rules)[0]);
      assert Splice(toks, q, Swapped(toks[q], rules))[p] == toks[p];
    }
  }

  /** Dropping either of two places gives the same sequence just when neighbours agree between. */
  lemma DropEither(a: seq<Token>, p: nat, q: nat)
    requires p < q < |a|
    ensures Splice(a, p, []) == Splice(a, q, []) <==>
            forall k :: p <= k < q ==> a[k] == a[k + 1]
  {
    var x, y := Splice(a, p, []), Splice(a, q, []);
    if x == y {
      forall k | p <= k < q ensures a[k] == a[k + 1] {
        assert x[k] == a[k + 1] && y[k] == a[k];
      }
    }
    if forall k :: p <= k < q ==> a[k] == a[k + 1] {
      forall k | 0 <= k < |x| ensures x[k] == y[k] {
      }
    }
  }

  lemma {:induction false} RunOfEqual(a: seq<Token>, p: nat, q: nat)
    requires p <= q < |a| && forall k :: p <= k < q ==> a[k] == a[k + 1]
    ensures a[q] == a[p]
  {
    if p < q {
      RunOfEqual(a, p, q - 1);
    }
  }
}
