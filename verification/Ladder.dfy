/** The price of an attempt and what a book's depth gives it
    (decile-blueprint/packages/core/src/baskfy_core/options/execution.py). Prices are paise. */
module Ladder {
  import opened Options

  datatype Level = Level(price: int, quantity: int)
  datatype OrderSide = Buy | Sell

  /** One side of a book, and how much worse every level but the first fills. */
  datatype BookSide = BookSide(ladder: seq<Level>, latency: nat) {
    function Prices(side: OrderSide): seq<int> {
      UnitPrices(side, ladder, latency, true)
    }

    /** What the walk reckons a level at. */
    function PriceAt(side: OrderSide, i: nat, first: bool): int
      requires i < |ladder|
    {
      if first then ladder[i].price else Worse(side, ladder[i].price, latency)
    }
  }

  function Min(a: int, b: int): int {
    if a < b then a else b
  }

  function Max(a: int, b: int): int {
    if a > b then a else b
  }

  predicate BeyondLimit(side: OrderSide, price: int, limit: int) {
    if side == Buy then price > limit else price < limit
  }

  /** `ticks` worse for the one who takes it. */
  function Worse(side: OrderSide, price: int, ticks: int): int {
    if side == Buy then price + ticks else price - ticks
  }

  // ----- the depth-ladder simulator -----

  predicate Real(level: Level) {
    level.price > 0 && level.quantity > 0
  }

  /** The price of each unit the ladder offers, in the order they are taken: a level's quantity at its own price
      for the first real level, and at `latency` worse for every one after it. */
  function UnitPrices(side: OrderSide, ladder: seq<Level>, latency: nat, first: bool): seq<int> {
    if ladder == [] then []
    else if !Real(ladder[0]) then UnitPrices(side, ladder[1..], latency, first)
    else
      Repeated(if first then ladder[0].price else Worse(side, ladder[0].price, latency), ladder[0].quantity)
      + UnitPrices(side, ladder[1..], latency, false)
  }

  function Repeated(price: int, n: nat): (r: seq<int>)
    ensures |r| == n && forall k :: 0 <= k < n ==> r[k] == price
  {
    seq(n, _ => price)
  }

  /** The units on a ladder: every level that has a price and a quantity gives its quantity. */
  function UnitsOn(ladder: seq<Level>): int {
    if ladder == [] then 0
    else (if ladder[0].price >= 1 && ladder[0].quantity >= 1 then ladder[0].quantity else 0) + UnitsOn(ladder[1..])
  }

  lemma {:induction false} EveryUnitPriced(side: OrderSide, ladder: seq<Level>, latency: nat, first: bool)
    ensures |UnitPrices(side, ladder, latency, first)| == UnitsOn(ladder)
  {
    if ladder != [] {
      EveryUnitPriced(side, ladder[1..], latency, if Real(ladder[0]) then false else first);
    }
  }

  lemma TakesAll(side: OrderSide, prices: seq<int>, limit: int, quantity: nat, got: Got)
    requires IsFill(side, prices, limit, quantity, got)
    requires forall k :: 0 <= k < |prices| ==> !BeyondLimit(side, prices[k], limit)
    ensures got.filled == Min(quantity, |prices|)
  {
  }

  /** Without a limit in the way, an order fills as far as the ladder has units. */
  lemma {:induction false} FillsWhatIsThere(side: OrderSide, book: BookSide, limit: int, quantity: nat, got: Got)
    requires Fills(side, book, limit, quantity, got)
    requires forall k :: 0 <= k < |book.Prices(side)| ==> !BeyondLimit(side, book.Prices(side)[k], limit)
    ensures got.filled == Min(quantity, UnitsOn(book.ladder))
  {
    EveryUnitPriced(side, book.ladder, book.latency, true);
    TakesAll(side, book.Prices(side), limit, quantity, got);
  }

  function Sum(prices: seq<int>): int {
    if prices == [] then 0 else Sum(prices[..|prices| - 1]) + prices[|prices| - 1]
  }

  lemma {:induction false} SumConcat(a: seq<int>, b: seq<int>)
    ensures Sum(a + b) == Sum(a) + Sum(b)
  {
    if b == [] {
      assert a + b == a;
    } else {
      SumConcat(a, b[..|b| - 1]);
      assert (a + b)[..|a + b| - 1] == a + b[..|b| - 1];
    }
  }

  /** The cost of `n` units at one price. */
  function Cost(price: int, n: int): int {
    price * n
  }

  lemma {:induction false} SumRepeated(price: int, n: nat)
    ensures Sum(Repeated(price, n)) == Cost(price, n)
  {
    if n > 0 {
      SumRepeated(price, n - 1);
      assert Repeated(price, n)[..n - 1] == Repeated(price, n - 1);
      assert Cost(price, n) == Cost(price, n - 1) + price;
    }
  }

  datatype Got = Got(filled: nat, cost: int)

  /** A fill, unit by unit: each at its listed price, until the quantity is reached, the list ends or a price is
      beyond the limit. */
  predicate IsFill(side: OrderSide, prices: seq<int>, limit: int, quantity: nat, got: Got) {
    match got
    case Got(filled, cost) =>
      && filled <= quantity && filled <= |prices| && cost == Sum(prices[..filled])
      && (forall k :: 0 <= k < filled ==> !BeyondLimit(side, prices[k], limit))
      && (filled < quantity && filled < |prices| ==> BeyondLimit(side, prices[filled], limit))
  }

  /** What a book's depth gives an order at a limit. */
  predicate Fills(side: OrderSide, book: BookSide, limit: int, quantity: nat, got: Got) {
    match book
    case BookSide(ladder, latency) => IsFill(side, UnitPrices(side, ladder, latency, true), limit, quantity, got)
  }

  /** A list of prices and a limit leave one fill. */
  lemma OneFill(side: OrderSide, prices: seq<int>, limit: int, quantity: nat, a: Got, b: Got)
    requires IsFill(side, prices, limit, quantity, a) && IsFill(side, prices, limit, quantity, b)
    ensures a == b
  {
  }

  /** `done` units cost no more (a buy) or no less (a sale) than the limit each. */
  predicate WithinLimit(side: OrderSide, cost: int, limit: int, done: int) {
    if side == Buy then cost <= Cost(limit, done) else cost >= Cost(limit, done)
  }

  lemma {:induction false} SumWithinLimit(side: OrderSide, prices: seq<int>, limit: int)
    requires forall k :: 0 <= k < |prices| ==> !BeyondLimit(side, prices[k], limit)
    ensures WithinLimit(side, Sum(prices), limit, |prices|)
  {
    if prices != [] {
      SumWithinLimit(side, prices[..|prices| - 1], limit);
      assert Cost(limit, |prices|) == Cost(limit, |prices| - 1) + limit;
    }
  }

  /** No fill's average is beyond the limit. */
  lemma {:induction false} FillWithinLimit(side: OrderSide, book: BookSide, limit: int, quantity: nat, got: Got)
    requires Fills(side, book, limit, quantity, got)
    ensures WithinLimit(side, got.cost, limit, got.filled)
  {
    SumWithinLimit(side, book.Prices(side)[..got.filled], limit);
  }

  datatype Place = Place(level: nat, first: bool, done: nat, cost: int)

  /** Part-way down the ladder: the first `done` units are taken and `level` is next. */
  ghost predicate Walking(side: OrderSide, book: BookSide, limit: int, at: Place) {
    match book
    case BookSide(ladder, latency) =>
      var prices := UnitPrices(side, ladder, latency, true);
      && at.level <= |ladder| && at.done <= |prices| && at.cost == Sum(prices[..at.done])
      && (forall k :: 0 <= k < at.done ==> !BeyondLimit(side, prices[k], limit))
      && prices[at.done..] == UnitPrices(side, ladder[at.level..], latency, at.first)
  }

  /** `take` units of the next level: all of it, or the last ones wanted. */
  lemma {:induction false} LevelTaken(side: OrderSide, book: BookSide, limit: int, at: Place, price: int, take: nat)
    requires Walking(side, book, limit, at) && at.level < |book.ladder| && Real(book.ladder[at.level])
    requires price == book.PriceAt(side, at.level, at.first) && !BeyondLimit(side, price, limit)
    requires take <= book.ladder[at.level].quantity
    ensures var done, cost := at.done + take, at.cost + Cost(price, take);
            && Fills(side, book, limit, done, Got(done, cost))
            && (take == book.ladder[at.level].quantity ==>
                Walking(side, book, limit, Place(at.level + 1, false, done, cost)))
  {
    var prices, ladder, i, done := book.Prices(side), book.ladder, at.level, at.done;
    assert ladder[i..][0] == ladder[i] && ladder[i..][1..] == ladder[i + 1..];
    RunTaken(prices, done, price, ladder[i].quantity, UnitPrices(side, ladder[i + 1..], book.latency, false), take);
  }

  /** The next `q` prices are one, of which `take` are taken. */
  lemma {:induction false} RunTaken(prices: seq<int>, done: nat, price: int, q: nat, rest: seq<int>, take: nat)
    requires done <= |prices| && prices[done..] == Repeated(price, q) + rest && take <= q
    ensures done + q <= |prices| && prices[done + q..] == rest
    ensures Sum(prices[..done + take]) == Sum(prices[..done]) + Cost(price, take)
    ensures forall k :: done <= k < done + take ==> prices[k] == price
  {
    assert prices[done..done + take] == prices[done..][..take] == Repeated(price, take);
    assert prices[..done + take] == prices[..done] + Repeated(price, take);
    SumConcat(prices[..done], Repeated(price, take));
    SumRepeated(price, take);
    forall k | done <= k < done + take ensures prices[k] == price {
      assert prices[k] == prices[done..][k - done];
    }
    assert prices[done + q..] == prices[done..][q..] == rest;
  }

  lemma LevelBeyond(side: OrderSide, book: BookSide, limit: int, at: Place, quantity: nat)
    requires Walking(side, book, limit, at) && at.level < |book.ladder| && Real(book.ladder[at.level])
    requires BeyondLimit(side, book.PriceAt(side, at.level, at.first), limit) && at.done <= quantity
    ensures Fills(side, book, limit, quantity, Got(at.done, at.cost))
  {
    assert book.ladder[at.level..][0] == book.ladder[at.level];
    assert book.Prices(side)[at.done..][0] == book.Prices(side)[at.done];
  }

  lemma LevelSkipped(side: OrderSide, book: BookSide, limit: int, at: Place)
    requires Walking(side, book, limit, at) && at.level < |book.ladder| && !Real(book.ladder[at.level])
    ensures Walking(side, book, limit, at.(level := at.level + 1))
  {
    var ladder, i := book.ladder, at.level;
    assert ladder[i..][0] == ladder[i] && ladder[i..][1..] == ladder[i + 1..];
  }

  lemma LadderEnds(side: OrderSide, book: BookSide, limit: int, at: Place, quantity: nat)
    requires Walking(side, book, limit, at) && at.level == |book.ladder| && at.done <= quantity
    ensures Fills(side, book, limit, quantity, Got(at.done, at.cost))
  {
    assert book.ladder[at.level..] == [];
  }

  lemma LadderBegins(side: OrderSide, book: BookSide, limit: int)
    ensures Walking(side, book, limit, Place(0, true, 0, 0))
  {
    assert book.ladder[0..] == book.ladder;
  }

  /** One level: passed over, taken, or where the walk ends. */
  method WalkLevel(side: OrderSide, book: BookSide, limit: int, quantity: nat, at: Place)
    returns (next: Place, ends: bool)
    requires at.level < |book.ladder| && at.done < quantity && Walking(side, book, limit, at)
    ensures if ends then Fills(side, book, limit, quantity, Got(next.done, next.cost))
            else next.level == at.level + 1 && next.done < quantity && Walking(side, book, limit, next)
  {
    if !Real(book.ladder[at.level]) {
      LevelSkipped(side, book, limit, at);
      return at.(level := at.level + 1), false;
    }
    var price := book.PriceAt(side, at.level, at.first);
    if BeyondLimit(side, price, limit) {
      LevelBeyond(side, book, limit, at, quantity);
      return at, true;
    }
    var take := Min(quantity - at.done, book.ladder[at.level].quantity);
    LevelTaken(side, book, limit, at, price, take);
    next := Place(at.level + 1, false, at.done + take, at.cost + Cost(price, take));
    ends := next.done == quantity;
  }

  /** `simulate_fill`. */
  method SimulateFill(side: OrderSide, book: BookSide, quantity: nat, limit: int) returns (got: Got)
    requires quantity > 0
    ensures Fills(side, book, limit, quantity, got)
  {
    var at, ends := Place(0, true, 0, 0), false;
    LadderBegins(side, book, limit);
    while at.level < |book.ladder|
      invariant at.level <= |book.ladder| && at.done < quantity && Walking(side, book, limit, at)
      decreases |book.ladder| - at.level
    {
      at, ends := WalkLevel(side, book, limit, quantity, at);
      if ends {
        return Got(at.done, at.cost);
      }
    }
    LadderEnds(side, book, limit, at, quantity);
    return Got(at.done, at.cost);
  }

  /** The first real level. */
  function Best(ladder: seq<Level>): Option<Level> {
    if ladder == [] then None else if Real(ladder[0]) then Some(ladder[0]) else Best(ladder[1..])
  }

  lemma {:induction false} BestFirst(side: OrderSide, ladder: seq<Level>, latency: nat, k: nat)
    requires Best(ladder).Some? && k < Best(ladder).value.quantity
    ensures k < |UnitPrices(side, ladder, latency, true)|
    ensures UnitPrices(side, ladder, latency, true)[k] == Best(ladder).value.price
  {
    if !Real(ladder[0]) {
      BestFirst(side, ladder[1..], latency, k);
    }
  }

  /** An order that the best level holds in full costs exactly that level's price a unit, if the limit allows it,
      and fills nothing if not. */
  lemma {:induction false} FirstLevelFills(side: OrderSide, book: BookSide, limit: int, quantity: nat, got: Got)
    requires Fills(side, book, limit, quantity, got)
    requires Best(book.ladder).Some? && 0 < quantity <= Best(book.ladder).value.quantity
    ensures var price := Best(book.ladder).value.price;
            got == if BeyondLimit(side, price, limit) then Got(0, 0) else Got(quantity, Cost(price, quantity))
  {
    var prices, price := book.Prices(side), Best(book.ladder).value.price;
    forall k | 0 <= k < quantity ensures k < |prices| && prices[k] == price {
      BestFirst(side, book.ladder, book.latency, k);
    }
    BestFirst(side, book.ladder, book.latency, 0);
    BestFirst(side, book.ladder, book.latency, quantity - 1);
    assert prices[..quantity] == Repeated(price, quantity);
    SumRepeated(price, quantity);
  }

  /** With two real levels, what goes past the first costs `latency` a unit more than the second's own price to a
      buyer, and brings that much less to a seller. */
  lemma {:induction false} SecondLevelFills(side: OrderSide, a: Level, b: Level, latency: nat, limit: int,
                                            quantity: nat, got: Got)
    requires Real(a) && Real(b) && a.quantity < quantity <= a.quantity + b.quantity
    requires Fills(side, BookSide([a, b], latency), limit, quantity, got) && !BeyondLimit(side, a.price, limit)
    ensures var late := if side == Buy then b.price + latency else b.price - latency;
            got == if BeyondLimit(side, late, limit) then Got(a.quantity, Cost(a.price, a.quantity))
                   else Got(quantity, Cost(a.price, a.quantity) + Cost(late, quantity - a.quantity))
  {
    var late := if side == Buy then b.price + latency else b.price - latency;
    TwoLevels(side, a, b, latency);
    TwoRuns(side, a.price, a.quantity, late, b.quantity, limit, quantity, got);
  }

  lemma TwoLevels(side: OrderSide, a: Level, b: Level, latency: nat)
    requires Real(a) && Real(b)
    ensures UnitPrices(side, [a, b], latency, true)
         == Repeated(a.price, a.quantity) + Repeated(Worse(side, b.price, latency), b.quantity)
  {
    assert [a, b][1..] == [b] && [b][1..] == [];
    assert UnitPrices(side, [b], latency, false) == Repeated(Worse(side, b.price, latency), b.quantity) + [];
  }

  lemma {:induction false} TwoRuns(side: OrderSide, p: int, m: nat, r: int, n: nat, limit: int, quantity: nat, got: Got)
    requires IsFill(side, Repeated(p, m) + Repeated(r, n), limit, quantity, got)
    requires m < quantity <= m + n && !BeyondLimit(side, p, limit)
    ensures got == if BeyondLimit(side, r, limit) then Got(m, Cost(p, m))
                   else Got(quantity, Cost(p, m) + Cost(r, quantity - m))
  {
    var prices := Repeated(p, m) + Repeated(r, n);
    assert prices[m] == r;
    assert prices[..m] == Repeated(p, m) && prices[..quantity] == Repeated(p, m) + Repeated(r, quantity - m);
    SumConcat(Repeated(p, m), Repeated(r, quantity - m));
    SumRepeated(p, m);
    SumRepeated(r, quantity - m);
    OneFill(side, prices, limit, quantity, got,
            if BeyondLimit(side, r, limit) then Got(m, Sum(prices[..m])) else Got(quantity, Sum(prices[..quantity])));
  }

  // ----- attempts -----

  const MAX_ATTEMPTS := 3

  datatype Attempt = Attempt(price: int, marketable: bool)

  /** The tick, how many of them a first limit improves on the touch, and whether a close that reduces risk gets a
      last marketable order. */
  datatype Terms = Terms(tick: nat, improve: nat, finalMarketable: bool)

  /** `next_attempt`: two limits improving on the touch, then, for a close that reduces risk, one
      marketable order at the touch. No order prices below one tick. */
  function NextAttempt(number: nat, side: OrderSide, bid: int, ask: int, terms: Terms, reducesRisk: bool)
    : Option<Attempt>
    requires number >= 1
  {
    var touch := if side == Buy then ask else bid;
    var step := Cost(terms.tick, terms.improve + (number - 1));
    if number <= 2 then Some(Attempt(Max(Worse(side, touch, step), terms.tick), false))
    else if number == MAX_ATTEMPTS && reducesRisk && terms.finalMarketable then
      Some(Attempt(Max(touch, terms.tick), true))
    else None
  }

  /** How far through the touch a price is: a buy's above the ask, a sale's below the bid. */
  function Through(side: OrderSide, bid: int, ask: int, price: int): int {
    if side == Buy then price - ask else bid - price
  }

  /** Which attempts there are. */
  lemma AttemptsGiven(number: nat, side: OrderSide, bid: int, ask: int, terms: Terms, reducesRisk: bool)
    requires number >= 1
    ensures NextAttempt(number, side, bid, ask, terms, reducesRisk).Some?
       <==> number <= 2 || (number == 3 && reducesRisk && terms.finalMarketable)
    ensures var a := NextAttempt(number, side, bid, ask, terms, reducesRisk);
            a.Some? ==> (a.value.marketable <==> number == 3) && a.value.price >= terms.tick
  {
  }

  /** Away from the floor of one tick the first limit is `improve` ticks through the touch, the second one more,
      and the marketable order at the touch; at the floor the price is one tick. */
  lemma AttemptThrough(number: nat, side: OrderSide, bid: int, ask: int, terms: Terms, reducesRisk: bool)
    requires number >= 1 && NextAttempt(number, side, bid, ask, terms, reducesRisk).Some?
    ensures var price := NextAttempt(number, side, bid, ask, terms, reducesRisk).value.price;
            var ticks := if number == 1 then terms.improve else if number == 2 then terms.improve + 1 else 0;
            if (if side == Buy then ask + ticks * terms.tick else bid - ticks * terms.tick) >= terms.tick
            then Through(side, bid, ask, price) == ticks * terms.tick
            else price == terms.tick
  {
  }

  /** Every attempt takes the touch: with the touch at the best level of the ladder it walks and enough there, it
      fills in full at that price. The exception is a sale into a bid below one tick, which fills nothing. */
  lemma {:induction false} AttemptTakesTouch(number: nat, side: OrderSide, bid: int, ask: int, terms: Terms,
                                             reducesRisk: bool, book: BookSide, quantity: nat, got: Got)
    requires number >= 1 && NextAttempt(number, side, bid, ask, terms, reducesRisk).Some?
    requires Best(book.ladder).Some? && 0 < quantity <= Best(book.ladder).value.quantity
    requires Best(book.ladder).value.price == if side == Buy then ask else bid
    requires var limit := NextAttempt(number, side, bid, ask, terms, reducesRisk).value.price;
             Fills(side, book, limit, quantity, got)
    ensures got == if side == Sell && bid < terms.tick then Got(0, 0)
                   else Got(quantity, Cost(if side == Buy then ask else bid, quantity))
  {
    var limit := NextAttempt(number, side, bid, ask, terms, reducesRisk).value.price;
    assert Cost(terms.tick, terms.improve + (number - 1)) >= 0;
    FirstLevelFills(side, book, limit, quantity, got);
  }
}
