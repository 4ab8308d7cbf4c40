/** The covered-overnight rule (decile-blueprint/packages/core/src/baskfy_core/fno/covered.py).

    The product rule: a short option is never open without a long of the same underlying, expiry and
    type, strictly further from the money, in at least the same quantity. The code walks the strikes
    inward keeping a running sum. The two are shown to be the same thing: the walk finds nothing
    exactly when every short unit can be assigned its own long unit strictly further out. */
module Covered {

  datatype OptionType = CE | PE
  datatype Side = Side(underlying: string, expiry: int, kind: OptionType)

  /** A signed quantity of one contract; strikes in paise. */
  datatype Row = Row(side: Side, strike: int, quantity: int)

  // ----- nets by running from the outside in -----

  function Sum(a: seq<int>): int {
    if a == [] then 0 else Sum(a[..|a| - 1]) + a[|a| - 1]
  }

  /** No prefix of the outward-sorted nets is short. */
  ghost predicate NoPrefixShort(a: seq<int>) {
    forall k :: 0 <= k <= |a| ==> Sum(a[..k]) >= 0
  }

  /** `units` of the long at place `long` set against the short at place `short`. */
  datatype Pair = Pair(long: nat, short: nat, units: nat)

  /** Every pair names a long strictly further out than its short. */
  ghost predicate Inward(pairs: seq<Pair>, n: nat) {
    forall i :: 0 <= i < |pairs| ==> pairs[i].long < pairs[i].short < n
  }

  function Moved(a: seq<int>, p: Pair): (r: seq<int>)
    requires p.long < p.short < |a|
    ensures |r| == |a|
  {
    a[p.long := a[p.long] - p.units][p.short := a[p.short] + p.units]
  }

  /** The nets left once the pairs have been set against one another. */
  ghost function After(a: seq<int>, pairs: seq<Pair>): (r: seq<int>)
    requires Inward(pairs, |a|)
    ensures |r| == |a|
    decreases |pairs|
  {
    if pairs == [] then a else After(Moved(a, pairs[0]), pairs[1..])
  }

  /** The product rule itself: every pair sets a long against a short strictly further in, no long is
      used beyond its quantity, and every short is used up. */
  ghost predicate IsCover(a: seq<int>, pairs: seq<Pair>) {
    && Inward(pairs, |a|) && (forall i :: 0 <= i < |pairs| ==> a[pairs[i].long] > 0 > a[pairs[i].short])
    && (forall k :: 0 <= k < |a| ==> After(a, pairs)[k] >= 0)
    && (forall k :: 0 <= k < |a| && a[k] < 0 ==> After(a, pairs)[k] == 0)
  }

  lemma {:induction false} SumUpdate(a: seq<int>, i: nat, v: int)
    requires i < |a|
    ensures Sum(a[i := v]) == Sum(a) - a[i] + v
  {
    var n := |a| - 1;
    if i == n {
      assert a[i := v][..n] == a[..n];
    } else {
      SumUpdate(a[..n], i, v);
      assert a[i := v][..n] == a[..n][i := v];
    }
  }

  /** Moving units inward never raises a prefix sum. */
  lemma MoveInward(a: seq<int>, p: Pair, k: nat)
    requires p.long < p.short < |a| && k <= |a|
    ensures Sum(Moved(a, p)[..k]) <= Sum(a[..k])
    ensures p.short < k || k <= p.long ==> Sum(Moved(a, p)[..k]) == Sum(a[..k])
  {
    var b := Moved(a, p);
    if k <= p.long {
      assert b[..k] == a[..k];
    } else if k <= p.short {
      assert b[..k] == a[..k][p.long := a[p.long] - p.units];
      SumUpdate(a[..k], p.long, a[p.long] - p.units);
    } else {
      var m := a[..k][p.long := a[p.long] - p.units];
      assert b[..k] == m[p.short := a[p.short] + p.units];
      SumUpdate(a[..k], p.long, a[p.long] - p.units);
      SumUpdate(m, p.short, a[p.short] + p.units);
    }
  }

  lemma {:induction false} PrefixAfter(a: seq<int>, pairs: seq<Pair>, k: nat)
    requires Inward(pairs, |a|) && k <= |a|
    ensures Sum(After(a, pairs)[..k]) <= Sum(a[..k])
    decreases |pairs|
  {
    if pairs != [] {
      PrefixAfter(Moved(a, pairs[0]), pairs[1..], k);
      MoveInward(a, pairs[0], k);
    }
  }

  lemma {:induction false} SumNonNegative(a: seq<int>)
    requires forall k :: 0 <= k < |a| ==> a[k] >= 0
    ensures Sum(a) >= 0
  {
    if a != [] {
      SumNonNegative(a[..|a| - 1]);
    }
  }

  lemma CoverGivesPrefixes(a: seq<int>, pairs: seq<Pair>)
    requires IsCover(a, pairs)
    ensures NoPrefixShort(a)
  {
    forall k | 0 <= k <= |a| ensures Sum(a[..k]) >= 0 {
      PrefixAfter(a, pairs, k);
      SumNonNegative(After(a, pairs)[..k]);
    }
  }

  /** Units still short. */
  function ShortUnits(a: seq<int>): nat {
    if a == [] then 0
    else ShortUnits(a[..|a| - 1]) + if a[|a| - 1] < 0 then -a[|a| - 1] else 0
  }

  lemma {:induction false} ShortUpdate(a: seq<int>, i: nat, v: int)
    requires i < |a|
    ensures ShortUnits(a[i := v]) ==
            ShortUnits(a) - (if a[i] < 0 then -a[i] else 0) + if v < 0 then -v else 0
  {
    var n := |a| - 1;
    if i == n {
      assert a[i := v][..n] == a[..n];
    } else {
      ShortUpdate(a[..n], i, v);
      assert a[i := v][..n] == a[..n][i := v];
    }
  }

  lemma {:induction false} SomePositive(a: seq<int>) returns (l: nat)
    requires Sum(a) > 0
    ensures l < |a| && a[l] > 0
  {
    var n := |a| - 1;
    if a[n] > 0 {
      l := n;
    } else {
      l := SomePositive(a[..n]);
    }
  }

  lemma FirstNegative(a: seq<int>, i: nat) returns (s: nat)
    requires i < |a| && a[i] < 0
    ensures s < |a| && a[s] < 0 && forall k :: 0 <= k < s ==> a[k] >= 0
  {
    s := 0;
    while a[s] >= 0
      invariant s <= i
      invariant forall k :: 0 <= k < s ==> a[k] >= 0
      decreases i - s
    {
      s := s + 1;
    }
  }

  /** Some short, outermost, and a long further out to set against it. */
  lemma GreedyPair(a: seq<int>, i: nat) returns (p: Pair)
    requires NoPrefixShort(a) && i < |a| && a[i] < 0
    ensures p.long < p.short < |a| && a[p.long] > 0 > a[p.short]
    ensures 0 < p.units <= a[p.long] && p.units <= -a[p.short]
    ensures forall k :: 0 <= k < p.short ==> a[k] >= 0
  {
    var s := FirstNegative(a, i);
    assert a[..s + 1][..s] == a[..s];
    assert Sum(a[..s + 1]) >= 0;
    var l := SomePositive(a[..s]);
    p := Pair(l, s, if a[l] < -a[s] then a[l] else -a[s]);
  }

  lemma MovedKeepsPrefixes(a: seq<int>, p: Pair)
    requires NoPrefixShort(a) && p.long < p.short < |a| && p.units <= a[p.long]
    requires forall k :: 0 <= k < p.short ==> a[k] >= 0
    ensures NoPrefixShort(Moved(a, p))
  {
    var b := Moved(a, p);
    forall k | 0 <= k <= |b| ensures Sum(b[..k]) >= 0 {
      if k <= p.short {
        SumNonNegative(b[..k]);
      } else {
        MoveInward(a, p, k);
      }
    }
  }

  lemma CoverExtends(a: seq<int>, p: Pair, rest: seq<Pair>)
    requires p.long < p.short < |a| && a[p.long] > 0 > a[p.short]
    requires p.units <= a[p.long] && p.units <= -a[p.short]
    requires IsCover(Moved(a, p), rest)
    ensures IsCover(a, [p] + rest)
  {
    assert ([p] + rest)[1..] == rest;
    assert After(a, [p] + rest) == After(Moved(a, p), rest);
    if Moved(a, p)[p.short] == 0 {
      Untouched(Moved(a, p), rest, p.short);
    }
  }

  lemma {:induction false} Untouched(a: seq<int>, pairs: seq<Pair>, k: nat)
    requires Inward(pairs, |a|) && k < |a|
    requires forall i :: 0 <= i < |pairs| ==> pairs[i].long != k && pairs[i].short != k
    ensures After(a, pairs)[k] == a[k]
    decreases |pairs|
  {
    if pairs != [] {
      Untouched(Moved(a, pairs[0]), pairs[1..], k);
    }
  }

  /** The walk's condition is enough: units can be assigned one short at a time, outermost first. */
  lemma {:induction false} PrefixesGiveCover(a: seq<int>) returns (pairs: seq<Pair>)
    requires NoPrefixShort(a)
    ensures IsCover(a, pairs)
    decreases ShortUnits(a)
  {
    if i: nat :| i < |a| && a[i] < 0 {
      var p := GreedyPair(a, i);
      ShortUpdate(a, p.long, a[p.long] - p.units);
      ShortUpdate(a[p.long := a[p.long] - p.units], p.short, a[p.short] + p.units);
      MovedKeepsPrefixes(a, p);
      var rest := PrefixesGiveCover(Moved(a, p));
      CoverExtends(a, p, rest);
      pairs := [p] + rest;
    } else {
      pairs := [];
    }
  }

  /** The running-sum condition and the existence of a cover are the same condition. */
  lemma CoverIffPrefixes(a: seq<int>)
    ensures NoPrefixShort(a) <==> exists pairs :: IsCover(a, pairs)
  {
    if NoPrefixShort(a) {
      var pairs := PrefixesGiveCover(a);
    }
    if pairs :| IsCover(a, pairs) {
      CoverGivesPrefixes(a, pairs);
    }
  }

  // ----- books of rows -----

  predicate Further(kind: OptionType, a: int, b: int) {
    if kind == CE then a > b else a < b
  }

  /** The net quantity of one contract in a book. */
  function NetAt(book: seq<Row>, side: Side, strike: int): int {
    if book == [] then 0
    else
      var r := book[|book| - 1];
      NetAt(book[..|book| - 1], side, strike) + if r.side == side && r.strike == strike then r.quantity else 0
  }

  /** Everything at this strike or further out: the threshold sum of one side of a book. */
  function Beyond(book: seq<Row>, side: Side, strike: int): int {
    if book == [] then 0
    else
      var r := book[|book| - 1];
      Beyond(book[..|book| - 1], side, strike)
      + if r.side == side && !Further(side.kind, strike, r.strike) then r.quantity else 0
  }

  ghost predicate SideIsCovered(book: seq<Row>, side: Side) {
    forall x :: Beyond(book, side, x) >= 0
  }

  /** A book is covered: at no strike of no side is the book short of what lies there or beyond. */
  ghost predicate IsCovered(book: seq<Row>) {
    forall side :: SideIsCovered(book, side)
  }

  lemma {:induction false} NetAtConcat(a: seq<Row>, b: seq<Row>, side: Side, strike: int)
    ensures NetAt(a + b, side, strike) == NetAt(a, side, strike) + NetAt(b, side, strike)
  {
    if b == [] {
      assert a + b == a;
    } else {
      NetAtConcat(a, b[..|b| - 1], side, strike);
      assert (a + b)[..|a + b| - 1] == a + b[..|b| - 1];
    }
  }

  lemma {:induction false} BeyondConcat(a: seq<Row>, b: seq<Row>, side: Side, strike: int)
    ensures Beyond(a + b, side, strike) == Beyond(a, side, strike) + Beyond(b, side, strike)
  {
    if b == [] {
      assert a + b == a;
    } else {
      BeyondConcat(a, b[..|b| - 1], side, strike);
      assert (a + b)[..|a + b| - 1] == a + b[..|b| - 1];
    }
  }

  /** The strikes of one side, outermost first, each once, and none with units left out. */
  ghost predicate Outward(book: seq<Row>, side: Side, strikes: seq<int>) {
    && (forall i, j :: 0 <= i < j < |strikes| ==> Further(side.kind, strikes[i], strikes[j]))
    && (forall k :: 0 <= k < |book| && book[k].side == side ==> book[k].strike in strikes)
  }

  function Nets(book: seq<Row>, side: Side, strikes: seq<int>): seq<int> {
    seq(|strikes|, i requires 0 <= i < |strikes| => NetAt(book, side, strikes[i]))
  }

  /** Over outward strikes, the k-th prefix sum is the threshold sum at the k-th strike. */
  lemma {:induction false} PrefixIsThreshold(book: seq<Row>, side: Side, strikes: seq<int>, x: int, k: nat)
    requires Outward(book, side, strikes) && k <= |strikes|
    requires forall i :: 0 <= i < |strikes| ==> (i < k <==> !Further(side.kind, x, strikes[i]))
    ensures Sum(Nets(book, side, strikes)[..k]) == Beyond(book, side, x)
  {
    if book == [] {
      SumZero(Nets(book, side, strikes)[..k]);
    } else {
      var n := |book| - 1;
      var init, r := book[..n], book[n];
      PrefixIsThreshold(init, side, strikes, x, k);
      var a, b := Nets(init, side, strikes)[..k], Nets(book, side, strikes)[..k];
      if r.side == side {
        var i :| 0 <= i < |strikes| && strikes[i] == r.strike;
        if i < k {
          assert b == a[i := a[i] + r.quantity];
          SumUpdate(a, i, a[i] + r.quantity);
        } else {
          assert b == a;
        }
      } else {
        assert b == a;
      }
    }
  }

  lemma {:induction false} SumZero(a: seq<int>)
    requires forall k :: 0 <= k < |a| ==> a[k] == 0
    ensures Sum(a) == 0
  {
    if a != [] {
      SumZero(a[..|a| - 1]);
    }
  }

  /** How many of the outward strikes lie at `x` or beyond. */
  lemma {:induction false} CutAt(kind: OptionType, strikes: seq<int>, x: int) returns (k: nat)
    requires forall i, j :: 0 <= i < j < |strikes| ==> Further(kind, strikes[i], strikes[j])
    ensures k <= |strikes|
    ensures forall i :: 0 <= i < |strikes| ==> (i < k <==> !Further(kind, x, strikes[i]))
  {
    if strikes == [] {
      k := 0;
    } else {
      var n := |strikes| - 1;
      if Further(kind, x, strikes[n]) {
        k := CutAt(kind, strikes[..n], x);
        assert forall i :: 0 <= i < n ==> strikes[..n][i] == strikes[i];
      } else {
        k := n + 1;
        assert forall i :: 0 <= i < n ==> Further(kind, strikes[i], strikes[n]);
      }
    }
  }

  /** One side of a book is covered exactly when no prefix of its outward nets is short. */
  lemma SideCovered(book: seq<Row>, side: Side, strikes: seq<int>)
    requires Outward(book, side, strikes)
    ensures SideIsCovered(book, side) <==> NoPrefixShort(Nets(book, side, strikes))
  {
    var a := Nets(book, side, strikes);
    if NoPrefixShort(a) {
      forall x ensures Beyond(book, side, x) >= 0 {
        var k := CutAt(side.kind, strikes, x);
        PrefixIsThreshold(book, side, strikes, x, k);
      }
    }
    if SideIsCovered(book, side) {
      forall k | 0 <= k <= |a| ensures Sum(a[..k]) >= 0 {
        if k == 0 {
          assert a[..0] == [];
        } else {
          AtStrike(book, side, strikes, k);
          assert Beyond(book, side, strikes[k - 1]) >= 0;
        }
      }
    }
  }

  lemma {:induction false} AtStrike(book: seq<Row>, side: Side, strikes: seq<int>, k: nat)
    requires Outward(book, side, strikes) && 0 < k <= |strikes|
    ensures Sum(Nets(book, side, strikes)[..k]) == Beyond(book, side, strikes[k - 1])
  {
    var x := strikes[k - 1];
    forall i | 0 <= i < |strikes| ensures i < k <==> !Further(side.kind, x, strikes[i]) {
      assert i < k - 1 ==> Further(side.kind, strikes[i], strikes[k - 1]);
      assert k - 1 < i ==> Further(side.kind, strikes[k - 1], strikes[i]);
    }
    PrefixIsThreshold(book, side, strikes, x, k);
  }

  /** The rule and the code, on a whole book: covered exactly when, on every side, every short unit
      has its own long unit strictly further out. */
  lemma CoveredIffAssigned(book: seq<Row>, outward: map<Side, seq<int>>)
    requires forall r :: r in book ==> r.side in outward
    requires forall side :: side in outward ==> Outward(book, side, outward[side])
    ensures IsCovered(book) <==>
            forall side :: side in outward ==> exists pairs :: IsCover(Nets(book, side, outward[side]), pairs)
  {
    forall side | side in outward
      ensures SideIsCovered(book, side) <==> exists pairs :: IsCover(Nets(book, side, outward[side]), pairs)
    {
      SideCovered(book, side, outward[side]);
      CoverIffPrefixes(Nets(book, side, outward[side]));
    }
    forall side | side !in outward ensures SideIsCovered(book, side) {
      NothingBeyond(book, side);
    }
  }

  lemma {:induction false} NothingBeyond(book: seq<Row>, side: Side)
    requires forall r :: r in book ==> r.side != side
    ensures forall x :: Beyond(book, side, x) == 0
  {
    if book != [] {
      assert forall r :: r in book[..|book| - 1] ==> r in book;
      assert book[|book| - 1] in book;
      NothingBeyond(book[..|book| - 1], side);
    }
  }

  // ----- the code -----

  /** An uncovered short, as the message reports it. */
  datatype Finding = Finding(side: Side, strike: int, short: int, long: int)

  /** `_net_by_side`: quantities netted per contract. */
  method NetBySide(book: seq<Row>) returns (sides: map<Side, map<int, int>>)
    ensures forall r :: r in book ==> r.side in sides && r.strike in sides[r.side]
    ensures forall side, x :: side in sides && x in sides[side] ==> sides[side][x] == NetAt(book, side, x)
    ensures forall side, x :: !(side in sides && x in sides[side]) ==> NetAt(book, side, x) == 0
  {
    sides := map[];
    for i := 0 to |book|
      invariant forall k :: 0 <= k < i ==> book[k].side in sides && book[k].strike in sides[book[k].side]
      invariant forall side, x :: side in sides && x in sides[side] ==> sides[side][x] == NetAt(book[..i], side, x)
      invariant forall side, x :: !(side in sides && x in sides[side]) ==> NetAt(book[..i], side, x) == 0
    {
      var r := book[i];
      assert book[..i + 1][..i] == book[..i];
      var byStrike := if r.side in sides then sides[r.side] else map[];
      var had := if r.strike in byStrike then byStrike[r.strike] else 0;
      sides := sides[r.side := byStrike[r.strike := had + r.quantity]];
    }
    assert book[..|book|] == book;
  }

  ghost predicate Quoted(book: seq<Row>, n: nat, side: Side, x: int)
    requires n <= |book|
  {
    exists k :: 0 <= k < n && book[k].side == side && book[k].strike == x
  }

  /** `sorted(by_strike, reverse=...)`: one side's strikes, outermost first. */
  method SortOutward(book: seq<Row>, side: Side) returns (strikes: seq<int>)
    ensures Outward(book, side, strikes)
    ensures forall i :: 0 <= i < |strikes| ==> Quoted(book, |book|, side, strikes[i])
  {
    strikes := [];
    for n := 0 to |book|
      invariant Outward(book[..n], side, strikes)
      invariant forall i :: 0 <= i < |strikes| ==> Quoted(book, n, side, strikes[i])
    {
      var x := book[n].strike;
      if book[n].side == side && x !in strikes {
        var at := 0;
        while at < |strikes| && Further(side.kind, strikes[at], x)
          invariant at <= |strikes|
          invariant forall i :: 0 <= i < at ==> Further(side.kind, strikes[i], x)
        {
          at := at + 1;
        }
        Inserted(book[..n], side, strikes, at, x);
        QuotedInserted(book, n, side, strikes, at);
        strikes := strikes[..at] + [x] + strikes[at..];
      } else {
        QuotedMore(book, n, side, strikes);
      }
      assert book[..n + 1] == book[..n] + [book[n]];
    }
    assert book[..|book|] == book;
  }

  lemma QuotedMore(book: seq<Row>, n: nat, side: Side, strikes: seq<int>)
    requires n < |book| && forall i :: 0 <= i < |strikes| ==> Quoted(book, n, side, strikes[i])
    ensures forall i :: 0 <= i < |strikes| ==> Quoted(book, n + 1, side, strikes[i])
  {
    forall i | 0 <= i < |strikes| ensures Quoted(book, n + 1, side, strikes[i]) {
      assert Quoted(book, n, side, strikes[i]);
    }
  }

  lemma QuotedInserted(book: seq<Row>, n: nat, side: Side, strikes: seq<int>, at: nat)
    requires n < |book| && forall i :: 0 <= i < |strikes| ==> Quoted(book, n, side, strikes[i])
    requires at <= |strikes| && book[n].side == side
    ensures var more := strikes[..at] + [book[n].strike] + strikes[at..];
            forall i :: 0 <= i < |more| ==> Quoted(book, n + 1, side, more[i])
  {
    QuotedMore(book, n, side, strikes);
    var more := strikes[..at] + [book[n].strike] + strikes[at..];
    forall i | 0 <= i < |more| ensures Quoted(book, n + 1, side, more[i]) {
      if i != at {
        assert more[i] == strikes[if i < at then i else i - 1];
      }
    }
  }

  lemma Inserted(book: seq<Row>, side: Side, strikes: seq<int>, at: nat, x: int)
    requires Outward(book, side, strikes) && at <= |strikes| && x !in strikes
    requires forall i :: 0 <= i < at ==> Further(side.kind, strikes[i], x)
    requires at < |strikes| ==> !Further(side.kind, strikes[at], x)
    ensures Outward(book, side, strikes[..at] + [x] + strikes[at..])
    ensures x in strikes[..at] + [x] + strikes[at..]
  {
    var r := strikes[..at] + [x] + strikes[at..];
    assert forall y :: y in strikes ==> y in r;
    forall i | at <= i < |strikes| ensures Further(side.kind, x, strikes[i]) {
      assert strikes[at] in strikes;
      assert at < i ==> Further(side.kind, strikes[at], strikes[i]);
    }
  }

  function Values(strikes: seq<int>, nets: map<int, int>): seq<int>
    requires forall i :: 0 <= i < |strikes| ==> strikes[i] in nets
  {
    seq(|strikes|, i requires 0 <= i < |strikes| => nets[strikes[i]])
  }

  /** The lowest prefix sum: nothing, or how far the shorts run ahead of the longs further out. */
  function Lowest(a: seq<int>): int {
    if a == [] then 0
    else
      var low := Lowest(a[..|a| - 1]);
      if Sum(a) < low then Sum(a) else low
  }

  lemma {:induction false} LowestIs(a: seq<int>)
    ensures Lowest(a) <= 0 && (exists k :: 0 <= k <= |a| && Sum(a[..k]) == Lowest(a))
    ensures forall k :: 0 <= k <= |a| ==> Sum(a[..k]) >= Lowest(a)
  {
    assert a[..|a|] == a;
    if a != [] {
      var front := a[..|a| - 1];
      LowestIs(front);
      forall k | 0 <= k <= |a| ensures Sum(a[..k]) >= Lowest(a) {
        if k < |a| {
          assert a[..k] == front[..k];
        }
      }
      var k :| 0 <= k <= |front| && Sum(front[..k]) == Lowest(front);
      assert a[..k] == front[..k];
      assert Lowest(a) == Sum(a[..k]) || Lowest(a) == Sum(a[..|a|]);
    } else {
      assert Sum(a[..0]) == Lowest(a);
    }
  }

  /** So much and no less, added as longs further out than everything, covers the side. */
  lemma {:induction false} LeastMissing(a: seq<int>, units: nat)
    ensures NoPrefixShort([units] + a) <==> units >= -Lowest(a)
  {
    LowestIs(a);
    var more := [units] + a;
    forall k | 0 <= k <= |a| ensures Sum(more[..k + 1]) == units + Sum(a[..k]) {
      PrefixMore(units, a, k);
    }
    if NoPrefixShort(more) {
      var k :| 0 <= k <= |a| && Sum(a[..k]) == Lowest(a);
      assert Sum(more[..k + 1]) >= 0;
    } else {
      var k :| 0 <= k <= |more| && Sum(more[..k]) < 0;
      assert more[..0] == [];
      assert Sum(more[..(k - 1) + 1]) == units + Sum(a[..k - 1]);
    }
  }

  lemma {:induction false} PrefixMore(units: int, a: seq<int>, k: nat)
    requires k <= |a|
    ensures Sum(([units] + a)[..k + 1]) == units + Sum(a[..k])
  {
    var more := [units] + a;
    if k == 0 {
      assert more[..1] == [units] && [units][..0] == [];
    } else {
      PrefixMore(units, a, k - 1);
      assert more[..k + 1][..k] == more[..k] && a[..k][..k - 1] == a[..k - 1];
    }
  }

  /** The long units the findings say are missing, together. */
  function Shortfall(found: seq<Finding>): int {
    if found == [] then 0 else Shortfall(found[..|found| - 1]) + found[|found| - 1].short - found[|found| - 1].long
  }

  /** A short of the side with fewer longs further out, not already used, than it needs. */
  predicate Names(f: Finding, side: Side, nets: map<int, int>) {
    f.side == side && f.strike in nets && nets[f.strike] == -f.short && 0 <= f.long < f.short
  }

  /** The walk over one side. It names shorts that lack longs further out, and together they lack exactly what the
      side is missing. */
  method WalkSide(side: Side, strikes: seq<int>, nets: map<int, int>) returns (found: seq<Finding>)
    requires forall i :: 0 <= i < |strikes| ==> strikes[i] in nets
    ensures found == [] <==> NoPrefixShort(Values(strikes, nets))
    ensures forall f :: f in found ==> Names(f, side, nets)
    ensures Shortfall(found) == -Lowest(Values(strikes, nets))
  {
    ghost var a := Values(strikes, nets);
    found := [];
    var running := 0;
    for i := 0 to |strikes|
      invariant running == Sum(a[..i]) - Lowest(a[..i]) >= 0
      invariant Shortfall(found) == -Lowest(a[..i]) >= 0 && (found == [] <==> Lowest(a[..i]) == 0)
      invariant forall f :: f in found ==> Names(f, side, nets)
    {
      assert a[..i + 1][..i] == a[..i];
      var net := nets[strikes[i]];
      running := running + net;
      if net < 0 && running < 0 {
        var finding := Finding(side, strikes[i], -net, running - net);
        assert (found + [finding])[..|found|] == found;
        found := found + [finding];
        running := 0;
      }
    }
    assert a[..|strikes|] == a;
    LowestIs(a);
  }

  /** `uncovered`: every uncovered short of a book. It finds nothing exactly when the book is covered,
      and everything it names is a short. (The sides' order in the list is not modelled.) */
  method Uncovered(book: seq<Row>) returns (found: seq<Finding>)
    ensures found == [] <==> IsCovered(book)
    ensures forall f :: f in found ==> NetAt(book, f.side, f.strike) == -f.short && 0 <= f.long < f.short
  {
    var sides := NetBySide(book);
    var left := sides.Keys;
    found := [];
    while left != {}
      invariant left <= sides.Keys
      invariant found == [] <==> forall side :: side in sides && side !in left ==> SideIsCovered(book, side)
      invariant forall f :: f in found ==> NetAt(book, f.side, f.strike) == -f.short && 0 <= f.long < f.short
      decreases left
    {
      var side :| side in left;
      var strikes := SortOutward(book, side);
      forall i | 0 <= i < |strikes| ensures strikes[i] in sides[side] {
        assert Quoted(book, |book|, side, strikes[i]);
        var k :| 0 <= k < |book| && book[k].side == side && book[k].strike == strikes[i];
        assert book[k] in book;
      }
      var more := WalkSide(side, strikes, sides[side]);
      assert Nets(book, side, strikes) == Values(strikes, sides[side]);
      SideCovered(book, side, strikes);
      found := found + more;
      left := left - {side};
    }
    forall side | side !in sides ensures SideIsCovered(book, side) {
      NothingBeyond(book, side);
    }
  }

  // ----- the book after a step -----

  function BookAfter(broker: seq<Row>, filled: seq<Row>, step: Row): seq<Row> {
    broker + filled + [step]
  }

  function Negated(rows: seq<Row>): seq<Row> {
    seq(|rows|, i requires 0 <= i < |rows| => rows[i].(quantity := -rows[i].quantity))
  }

  lemma {:induction false} NegatedNet(rows: seq<Row>, side: Side, x: int)
    ensures NetAt(Negated(rows), side, x) == -NetAt(rows, side, x)
  {
    if rows != [] {
      NegatedNet(rows[..|rows| - 1], side, x);
      assert Negated(rows)[..|rows| - 1] == Negated(rows[..|rows| - 1]);
    }
  }

  /** A broker's book net of the plan's fills, plus the fills, plus the step: each fill counts once. */
  lemma {:induction false} FillsCountOnce(raw: seq<Row>, filled: seq<Row>, netted: seq<Row>, step: Row, side: Side,
                                          x: int)
    requires forall s, y :: NetAt(netted, s, y) == NetAt(raw + Negated(filled), s, y)
    ensures NetAt(BookAfter(netted, filled, step), side, x) == NetAt(raw + [step], side, x)
  {
    NetAtConcat(netted + filled, [step], side, x);
    NetAtConcat(netted, filled, side, x);
    NetAtConcat(raw, Negated(filled), side, x);
    NegatedNet(filled, side, x);
    NetAtConcat(raw, [step], side, x);
  }
}
