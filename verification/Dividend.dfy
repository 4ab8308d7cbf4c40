/** Corporate-action adjustment and window returns (decile-blueprint/reconciliation/dividend_convention.py).
    Days are numbers; prices and factors are reals. */
module Dividend {
  import opened Sequences
  import opened Options
  import opened Money

  datatype Action = Action(exDate: int, factor: real, shareCount: bool)
  datatype Bar = Bar(day: int, close: real)

  /** The actions a series applies: all of them, or the share-count ones alone (`share_count_only`). The cash
      ones are what tells the two apart. */
  datatype Which = All | Shares | Cash

  predicate Chosen(a: Action, which: Which) {
    match which
    case All => true
    case Shares => a.shareCount
    case Cash => !a.shareCount
  }

  /** An action's factor if it is chosen and goes ex after `from`. */
  function Due(a: Action, from: int, which: Which): real {
    if Chosen(a, which) && a.exDate > from then a.factor else 1.0
  }

  /** And by `to`. */
  function Inside(a: Action, from: int, to: int, which: Which): real {
    if Chosen(a, which) && from < a.exDate <= to then a.factor else 1.0
  }

  /** The product of the chosen factors still owed on `day`. */
  function Owed(actions: seq<Action>, day: int, which: Which): real {
    if actions == [] then 1.0
    else Times(Owed(actions[..|actions| - 1], day, which), Due(actions[|actions| - 1], day, which))
  }

  /** The product of the chosen factors with `from < exDate <= to`. */
  function Between(actions: seq<Action>, from: int, to: int, which: Which): real {
    if actions == [] then 1.0
    else Times(Between(actions[..|actions| - 1], from, to, which), Inside(actions[|actions| - 1], from, to, which))
  }

  predicate Positive(actions: seq<Action>) {
    forall i :: 0 <= i < |actions| ==> actions[i].factor > 0.0
  }

  lemma PositiveTimes(x: real, y: real)
    requires x > 0.0 && y > 0.0
    ensures Times(x, y) > 0.0
  {
  }

  lemma {:induction false} OwedPositive(actions: seq<Action>, day: int, which: Which)
    requires Positive(actions)
    ensures Owed(actions, day, which) > 0.0
  {
    if actions != [] {
      OwedPositive(actions[..|actions| - 1], day, which);
      PositiveTimes(Owed(actions[..|actions| - 1], day, which), Due(actions[|actions| - 1], day, which));
    }
  }

  lemma {:induction false} BetweenPositive(actions: seq<Action>, from: int, to: int, which: Which)
    requires Positive(actions)
    ensures Between(actions, from, to, which) > 0.0
  {
    if actions != [] {
      BetweenPositive(actions[..|actions| - 1], from, to, which);
      PositiveTimes(Between(actions[..|actions| - 1], from, to, which),
        Inside(actions[|actions| - 1], from, to, which));
    }
  }

  // ----- the series -----

  function Adjusted(bars: seq<Bar>, actions: seq<Action>, which: Which): seq<Bar>
    requires Positive(actions)
  {
    if bars == [] then []
    else
      var b := bars[|bars| - 1];
      OwedPositive(actions, b.day, which);
      Adjusted(bars[..|bars| - 1], actions, which) + [Bar(b.day, b.close / Owed(actions, b.day, which))]
  }

  function Filter(actions: seq<Action>, which: Which): seq<Action> {
    if actions == [] then []
    else
      var a := actions[|actions| - 1];
      Filter(actions[..|actions| - 1], which) + if Chosen(a, which) then [a] else []
  }

  lemma {:induction false} OwedSnoc(actions: seq<Action>, a: Action, day: int, which: Which)
    ensures Owed(actions + [a], day, which) == Times(Owed(actions, day, which), Due(a, day, which))
  {
    assert (actions + [a])[..|actions|] == actions;
  }

  lemma {:induction false} OwedOfFilter(actions: seq<Action>, day: int, which: Which)
    ensures Owed(Filter(actions, which), day, All) == Owed(actions, day, which)
  {
    if actions != [] {
      var front, a := actions[..|actions| - 1], actions[|actions| - 1];
      OwedOfFilter(front, day, which);
      if Chosen(a, which) {
        OwedSnoc(Filter(front, which), a, day, All);
        assert Filter(actions, which) == Filter(front, which) + [a];
        assert Due(a, day, which) == Due(a, day, All);
      } else {
        assert Filter(actions, which) == Filter(front, which);
        TimesOne(Owed(front, day, which));
      }
    }
  }

  lemma TimesOne(x: real)
    ensures Times(x, 1.0) == x
  {
  }

  /** `adjusted`: for each bar, a loop over the chosen actions. */
  method AdjustedSeries(bars: seq<Bar>, actions: seq<Action>, which: Which) returns (out: seq<Bar>)
    requires Positive(actions)
    ensures out == Adjusted(bars, actions, which)
  {
    var chosen := [];
    for i := 0 to |actions|
      invariant chosen == Filter(actions[..i], which)
    {
      assert actions[..i + 1][..i] == actions[..i];
      if Chosen(actions[i], which) {
        chosen := chosen + [actions[i]];
      }
    }
    assert actions[..|actions|] == actions;
    out := [];
    for i := 0 to |bars|
      invariant out == Adjusted(bars[..i], actions, which)
    {
      assert bars[..i + 1][..i] == bars[..i];
      var factor := 1.0;
      for j := 0 to |chosen|
        invariant factor == Owed(chosen[..j], bars[i].day, All)
      {
        assert chosen[..j + 1][..j] == chosen[..j];
        if chosen[j].exDate > bars[i].day {
          factor := Times(factor, chosen[j].factor);
        } else {
          TimesOne(factor);
        }
      }
      assert chosen[..|chosen|] == chosen;
      OwedOfFilter(actions, bars[i].day, which);
      OwedPositive(actions, bars[i].day, which);
      out := out + [Bar(bars[i].day, bars[i].close / factor)];
    }
    assert bars[..|bars|] == bars;
  }

  /** `window_return`, a percentage: none when the history is too short or starts at zero. */
  function WindowReturn(series: seq<Bar>, bars: nat): Option<real>
    requires bars > 0
  {
    if |series| < bars then None
    else
      var end, start := series[|series| - 1].close, series[|series| - bars].close;
      Shown(start, end)
  }

  /** A growth as a percentage, and back. */
  function Percent(growth: real): real {
    (growth - 1.0) * 100.0
  }

  function GrowthOf(percent: real): real {
    1.0 + percent * 0.01
  }

  function Shown(start: real, end: real): Option<real> {
    if start == 0.0 then None else Some(Percent(end / start))
  }

  // ----- what a return depends on -----

  /** What was owed at the start is what is still owed at the end, times what fell due between. */
  lemma {:induction false} OwedSplits(actions: seq<Action>, from: int, to: int, which: Which)
    requires from <= to
    ensures Owed(actions, from, which) == Times(Owed(actions, to, which), Between(actions, from, to, which))
  {
    if actions != [] {
      var front, a := actions[..|actions| - 1], actions[|actions| - 1];
      OwedSplits(front, from, to, which);
      DueSplits(a, from, to, which);
      Regroup(Owed(front, to, which), Between(front, from, to, which), Due(a, to, which), Inside(a, from, to, which));
    }
  }

  /** The same, of plain numbers. */
  lemma {:induction false} SplitOf(actions: seq<Action>, from: int, to: int, which: Which, f0: real, f1: real,
                                   between: real)
    requires from <= to
    requires f0 == Owed(actions, from, which) && f1 == Owed(actions, to, which)
        && between == Between(actions, from, to, which)
    ensures f0 == Times(f1, between)
  {
    OwedSplits(actions, from, to, which);
  }

  lemma DueSplits(a: Action, from: int, to: int, which: Which)
    requires from <= to
    ensures Due(a, from, which) == Times(Due(a, to, which), Inside(a, from, to, which))
  {
  }

  lemma Regroup(x: real, y: real, g: real, h: real)
    ensures Times(Times(x, y), Times(g, h)) == Times(Times(x, g), Times(y, h))
  {
    assert (x * y) * (g * h) == x * (y * (g * h));
    assert y * (g * h) == g * (y * h) by {
      assert y * (g * h) == (y * g) * h;
      assert g * (y * h) == (g * y) * h;
    }
    assert x * (g * (y * h)) == (x * g) * (y * h);
  }

  lemma {:induction false} AdjustedAt(bars: seq<Bar>, actions: seq<Action>, which: Which, i: nat)
    requires Positive(actions) && i < |bars|
    ensures |Adjusted(bars, actions, which)| == |bars| && Owed(actions, bars[i].day, which) > 0.0
    ensures Adjusted(bars, actions, which)[i]
         == Bar(bars[i].day, bars[i].close / Owed(actions, bars[i].day, which))
  {
    var front := bars[..|bars| - 1];
    OwedPositive(actions, bars[i].day, which);
    if front == [] {
    } else {
      AdjustedAt(front, actions, which, if i < |front| then i else 0);
    }
  }

  /** The growth a window shows: its raw growth times the factors that fell due after its first day and by its
      last, and no others. */
  function Growth(bars: seq<Bar>, n: nat, actions: seq<Action>, which: Which): real
    requires 0 < n <= |bars| && bars[|bars| - n].close != 0.0
  {
    var start, end := bars[|bars| - n], bars[|bars| - 1];
    Times(end.close / start.close, Between(actions, start.day, end.day, which))
  }

  lemma Ratio(c0: real, c1: real, f0: real, f1: real, between: real)
    requires c0 > 0.0 && f1 > 0.0 && between > 0.0 && f0 == Times(f1, between) && f0 > 0.0
    ensures c0 / f0 > 0.0 && (c1 / f1) / (c0 / f0) == Times(c1 / c0, between)
  {
    var start := c0 / f0;
    assert start * f0 == c0;
    var x := Times(c1 / c0, between);
    assert c1 / c0 * c0 == c1;
    assert (x * start) * f1 == (c1 / c0) * (start * f0) == c1;
    assert x * start == c1 / f1;
  }

  predicate PricesPositive(bars: seq<Bar>) {
    forall i :: 0 <= i < |bars| ==> bars[i].close > 0.0
  }

  lemma {:induction false} EndsAre(bars: seq<Bar>, n: nat, actions: seq<Action>, which: Which)
    requires Positive(actions) && PricesPositive(bars) && 0 < n <= |bars|
    ensures var f0, f1 := Owed(actions, bars[|bars| - n].day, which), Owed(actions, bars[|bars| - 1].day, which);
            && f0 > 0.0 && f1 > 0.0
            && WindowReturn(Adjusted(bars, actions, which), n)
              == Shown(bars[|bars| - n].close / f0, bars[|bars| - 1].close / f1)
  {
    AdjustedAt(bars, actions, which, |bars| - n);
    AdjustedAt(bars, actions, which, |bars| - 1);
  }

  /** The same, with the products as plain numbers. */
  lemma Ends(bars: seq<Bar>, n: nat, actions: seq<Action>, which: Which) returns (f0: real, f1: real, between: real)
    requires Positive(actions) && PricesPositive(bars) && 0 < n <= |bars|
    requires bars[|bars| - n].day <= bars[|bars| - 1].day
    ensures f0 > 0.0 && f1 > 0.0 && between > 0.0 && f0 == Times(f1, between)
    ensures between == Between(actions, bars[|bars| - n].day, bars[|bars| - 1].day, which)
    ensures WindowReturn(Adjusted(bars, actions, which), n)
        == Shown(bars[|bars| - n].close / f0, bars[|bars| - 1].close / f1)
  {
    var from, to := bars[|bars| - n].day, bars[|bars| - 1].day;
    f0, f1, between := Owed(actions, from, which), Owed(actions, to, which), Between(actions, from, to, which);
    EndsAre(bars, n, actions, which);
    BetweenPositive(actions, from, to, which);
    SplitOf(actions, from, to, which, f0, f1, between);
  }

  /** A window return sees only the actions inside `(start day, end day]`. */
  lemma {:induction false} ReturnIs(bars: seq<Bar>, n: nat, actions: seq<Action>, which: Which)
    requires Positive(actions) && PricesPositive(bars) && 0 < n <= |bars|
    requires bars[|bars| - n].day <= bars[|bars| - 1].day
    ensures WindowReturn(Adjusted(bars, actions, which), n) == Some(Percent(Growth(bars, n, actions, which)))
  {
    var f0, f1, between := Ends(bars, n, actions, which);
    Ratio(bars[|bars| - n].close, bars[|bars| - 1].close, f0, f1, between);
  }

  lemma {:induction false} ReturnOf(bars: seq<Bar>, n: nat, actions: seq<Action>, which: Which, raw: real,
                                    between: real)
    requires Positive(actions) && PricesPositive(bars) && 0 < n <= |bars|
    requires bars[|bars| - n].day <= bars[|bars| - 1].day
    requires raw == bars[|bars| - 1].close / bars[|bars| - n].close
    requires between == Between(actions, bars[|bars| - n].day, bars[|bars| - 1].day, which)
    ensures WindowReturn(Adjusted(bars, actions, which), n) == Some(Percent(Times(raw, between)))
  {
    ReturnIs(bars, n, actions, which);
  }

  // ----- order does not matter -----

  /** A fold by an operation that commutes and associates. */
  function Fold(op: (real, real) -> real, unit: real, f: Action -> real, actions: seq<Action>): real {
    if actions == [] then unit
    else op(Fold(op, unit, f, actions[..|actions| - 1]), f(actions[|actions| - 1]))
  }

  /** The order of two steps does not matter. */
  ghost predicate Exchanges(op: (real, real) -> real) {
    forall x, y, z :: op(op(x, y), z) == op(op(x, z), y)
  }

  lemma Exchange(op: (real, real) -> real, x: real, y: real, z: real)
    requires Exchanges(op)
    ensures op(op(x, y), z) == op(op(x, z), y)
  {
  }

  lemma {:induction false} FoldTakeOut(op: (real, real) -> real, unit: real, f: Action -> real, y: seq<Action>, k: nat)
    requires Exchanges(op) && k < |y|
    ensures Fold(op, unit, f, y) == op(Fold(op, unit, f, Without(y, k)), f(y[k]))
    decreases |y|
  {
    var front, last := y[..|y| - 1], y[|y| - 1];
    if k == |y| - 1 {
      assert Without(y, k) == front;
    } else {
      FoldTakeOut(op, unit, f, front, k);
      var rest := Without(y, k);
      assert rest[..|rest| - 1] == Without(front, k) && rest[|rest| - 1] == last;
      var x := Fold(op, unit, f, Without(front, k));
      Exchange(op, x, f(y[k]), f(last));
    }
  }

  lemma {:induction false} FoldPermutes(op: (real, real) -> real, unit: real, f: Action -> real, x: seq<Action>,
                                        y: seq<Action>)
    requires Exchanges(op) && multiset(x) == multiset(y)
    ensures Fold(op, unit, f, x) == Fold(op, unit, f, y)
    decreases |x|
  {
    if x == [] {
      BothEmpty(y);
    } else {
      var k := FoundIn(x, y);
      TakenOut(x, y, k);
      FoldPermutes(op, unit, f, x[..|x| - 1], Without(y, k));
      FoldTakeOut(op, unit, f, y, k);
    }
  }

  lemma {:induction false} BetweenIsFold(op: (real, real) -> real, f: Action -> real, actions: seq<Action>, from: int,
                                         to: int, which: Which)
    requires (forall x, y :: op(x, y) == Times(x, y)) && forall a :: f(a) == Inside(a, from, to, which)
    ensures Fold(op, 1.0, f, actions) == Between(actions, from, to, which)
  {
    if actions != [] {
      BetweenIsFold(op, f, actions[..|actions| - 1], from, to, which);
    }
  }

  lemma Swaps(p: real, q: real, r: real)
    ensures Times(Times(p, q), r) == Times(Times(p, r), q)
  {
  }

  lemma {:induction false} BetweenPermutes(x: seq<Action>, y: seq<Action>, from: int, to: int, which: Which)
    requires multiset(x) == multiset(y)
    ensures Between(x, from, to, which) == Between(y, from, to, which)
  {
    var times := (p: real, q: real) => Times(p, q);
    var f := (a: Action) => Inside(a, from, to, which);
    BetweenIsFold(times, f, x, from, to, which);
    BetweenIsFold(times, f, y, from, to, which);
    forall p, q, r ensures times(times(p, q), r) == times(times(p, r), q) {
      Swaps(p, q, r);
    }
    FoldPermutes(times, 1.0, f, x, y);
  }

  /** The same actions in another order give the same return. */
  lemma {:induction false} ReturnPermutes(bars: seq<Bar>, n: nat, x: seq<Action>, y: seq<Action>, which: Which)
    requires multiset(x) == multiset(y) && Positive(x) && Positive(y) && PricesPositive(bars) && 0 < n <= |bars|
    requires bars[|bars| - n].day <= bars[|bars| - 1].day
    ensures WindowReturn(Adjusted(bars, x, which), n) == WindowReturn(Adjusted(bars, y, which), n)
  {
    ReturnIs(bars, n, x, which);
    ReturnIs(bars, n, y, which);
    BetweenPermutes(x, y, bars[|bars| - n].day, bars[|bars| - 1].day, which);
  }

  // ----- the two conventions -----

  lemma {:induction false} CashSplits(actions: seq<Action>, from: int, to: int)
    returns (all: real, share: real, cash: real)
    requires Positive(actions)
    ensures all == Between(actions, from, to, All) && share == Between(actions, from, to, Shares)
    ensures cash == Between(actions, from, to, Cash)
    ensures all == Times(share, cash) && share > 0.0
  {
    if actions == [] {
      all, share, cash := 1.0, 1.0, 1.0;
    } else {
      var front, a := actions[..|actions| - 1], actions[|actions| - 1];
      var x, y, z := CashSplits(front, from, to);
      var g, h := Inside(a, from, to, Shares), Inside(a, from, to, Cash);
      all, share, cash := Times(x, Inside(a, from, to, All)), Times(y, g), Times(z, h);
      assert Inside(a, from, to, All) == Times(g, h);
      PositiveTimes(y, g);
      Regroup(y, z, g, h);
    }
  }

  lemma Parts(bars: seq<Bar>, n: nat, actions: seq<Action>) returns (raw: real, share: real, cash: real, all: real)
    requires Positive(actions) && PricesPositive(bars) && 0 < n <= |bars|
    requires bars[|bars| - n].day <= bars[|bars| - 1].day
    ensures raw > 0.0 && share > 0.0 && all == Times(share, cash)
    ensures cash == Between(actions, bars[|bars| - n].day, bars[|bars| - 1].day, Cash)
    ensures WindowReturn(Adjusted(bars, actions, All), n) == Some(Percent(Times(raw, all)))
    ensures WindowReturn(Adjusted(bars, actions, Shares), n) == Some(Percent(Times(raw, share)))
  {
    var start, end := bars[|bars| - n], bars[|bars| - 1];
    all, share, cash := CashSplits(actions, start.day, end.day);
    raw := end.close / start.close;
    PositiveRatio(start.close, end.close);
    ReturnOf(bars, n, actions, All, raw, all);
    ReturnOf(bars, n, actions, Shares, raw, share);
  }

  /** The total return's growth over the price return's is the product of the cash factors in the window. The
      conventions agree on a window exactly when that product is one: so where no dividend has
      `start day < exDate <= end day`, its last day included. */
  lemma {:induction false} ConventionsDiffer(bars: seq<Bar>, n: nat, actions: seq<Action>)
    requires Positive(actions) && PricesPositive(bars) && 0 < n <= |bars|
    requires bars[|bars| - n].day <= bars[|bars| - 1].day
    ensures var total := WindowReturn(Adjusted(bars, actions, All), n);
            var price := WindowReturn(Adjusted(bars, actions, Shares), n);
            var cash := Between(actions, bars[|bars| - n].day, bars[|bars| - 1].day, Cash);
            && total.Some? && price.Some? && GrowthOf(price.value) > 0.0
            && GrowthOf(total.value) == Times(GrowthOf(price.value), cash)
            && (total == price <==> cash == 1.0)
  {
    var raw, share, cash, all := Parts(bars, n, actions);
    GrowthApart(raw, share, cash, all);
  }

  lemma PositiveRatio(c0: real, c1: real)
    requires c0 > 0.0 && c1 > 0.0
    ensures c1 / c0 > 0.0
  {
  }

  lemma GrowthApart(raw: real, share: real, cash: real, all: real)
    requires raw > 0.0 && share > 0.0 && all == Times(share, cash)
    ensures var total, price := Percent(Times(raw, all)), Percent(Times(raw, share));
            && GrowthOf(price) > 0.0 && GrowthOf(total) == Times(GrowthOf(price), cash)
            && (total == price <==> cash == 1.0)
  {
    Associates(raw, share, cash);
    PositiveTimes(raw, share);
    var g := Times(raw, share);
    assert GrowthOf(Percent(g)) == g && GrowthOf(Percent(Times(g, cash))) == Times(g, cash);
    Apart(g, cash);
  }

  lemma Associates(x: real, y: real, z: real)
    ensures Times(x, Times(y, z)) == Times(Times(x, y), z)
  {
  }

  lemma Apart(p: real, cash: real)
    requires p > 0.0
    ensures Times(p, cash) == p <==> cash == 1.0
  {
    if p * cash == p {
      assert p * (cash - 1.0) == 0.0;
    }
  }

  /** No dividend in the window, no difference. */
  lemma {:induction false} NoCashNoDifference(actions: seq<Action>, from: int, to: int)
    requires forall i :: 0 <= i < |actions| && !actions[i].shareCount ==> !(from < actions[i].exDate <= to)
    ensures Between(actions, from, to, Cash) == 1.0
  {
    if actions != [] {
      NoCashNoDifference(actions[..|actions| - 1], from, to);
    }
  }

  /** A single dividend that goes ex on the window's last day separates them, though it is not strictly inside. */
  lemma {:induction false} LastDayCounts(bars: seq<Bar>, n: nat, factor: real)
    requires PricesPositive(bars) && 0 < n <= |bars| && factor > 0.0 && factor != 1.0
    requires bars[|bars| - n].day < bars[|bars| - 1].day
    ensures var actions := [Action(bars[|bars| - 1].day, factor, false)];
            WindowReturn(Adjusted(bars, actions, All), n) != WindowReturn(Adjusted(bars, actions, Shares), n)
  {
    var actions := [Action(bars[|bars| - 1].day, factor, false)];
    ConventionsDiffer(bars, n, actions);
    assert actions[..0] == [];
  }
}
