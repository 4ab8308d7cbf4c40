/** What a send fills, unit by unit, and when an exit and a roll complete (`_send_future`, `execute_exit` and
    `execute_roll`, kite-momentum-rebalancer/app/fno_execute.py).

    The reference is a list: the price of every unit the broker offers in the attempts there are. A send takes its
    units from the front of it. */
module FutureFills {
  import opened Options
  import opened Money
  import opened FutureOrders
  import opened Ladder

  function Repeated(price: real, n: nat): (r: seq<real>)
    ensures |r| == n && forall k :: 0 <= k < n ==> r[k] == price
  {
    seq(n, _ => price)
  }

  /** The price of each unit offered in the first `tries` answers, up to the first that is no book: nothing after
      a missing quote or a refusal counts. */
  function Offered(answers: seq<Answer>, tries: nat): seq<real>
    decreases tries
  {
    if tries == 0 || answers == [] || !answers[0].Depth? then []
    else Repeated(answers[0].avg, answers[0].reach) + Offered(answers[1..], tries - 1)
  }

  /** The price of each unit of the pieces. */
  function UnitsOf(pieces: seq<Piece>): seq<real> {
    if pieces == [] then [] else Repeated(pieces[0].avg, pieces[0].quantity) + UnitsOf(pieces[1..])
  }

  function Sum(prices: seq<real>): real {
    if prices == [] then 0.0 else prices[0] + Sum(prices[1..])
  }

  lemma {:induction false} SumRepeated(price: real, n: nat, rest: seq<real>)
    ensures Sum(Repeated(price, n) + rest) == Times(price, n as real) + Sum(rest)
  {
    if n == 0 {
      assert Repeated(price, 0) + rest == rest;
    } else {
      SumRepeated(price, n - 1, rest);
      assert (Repeated(price, n) + rest)[1..] == Repeated(price, n - 1) + rest;
      OneMore(price, n - 1);
    }
  }

  lemma OneMore(price: real, n: nat)
    ensures Times(price, (n + 1) as real) == price + Times(price, n as real)
  {
  }

  /** Their number and their worth. */
  lemma {:induction false} UnitsAre(pieces: seq<Piece>)
    ensures |UnitsOf(pieces)| == Total(pieces) && Sum(UnitsOf(pieces)) == Value(pieces)
  {
    if pieces != [] {
      UnitsAre(pieces[1..]);
      SumRepeated(pieces[0].avg, pieces[0].quantity, UnitsOf(pieces[1..]));
    }
  }

  function First(s: seq<real>, n: nat): seq<real> {
    s[..Min(n, |s|)]
  }

  lemma {:induction false} AttemptsTake(n: nat, last: nat, remaining: nat, answers: seq<Answer>)
    requires n <= last + 1
    ensures UnitsOf(Attempts(n, last, remaining, answers)) == First(Offered(answers, last + 1 - n), remaining)
    decreases |answers|
  {
    if n <= last && remaining > 0 && answers != [] && answers[0].Depth? {
      var reach, avg := answers[0].reach, answers[0].avg;
      var f := if reach < remaining then reach else remaining;
      var rest := Attempts(n + 1, last, remaining - f, answers[1..]);
      AttemptsTake(n + 1, last, remaining - f, answers[1..]);
      OneAttempt(f, avg, rest);
      Split(reach, avg, Offered(answers[1..], last - n), remaining);
    }
  }

  lemma OneAttempt(f: nat, avg: real, rest: seq<Piece>)
    ensures UnitsOf((if f > 0 then [Piece(f, avg)] else []) + rest) == Repeated(avg, f) + UnitsOf(rest)
  {
    if f > 0 {
      assert ([Piece(f, avg)] + rest)[1..] == rest;
    } else {
      assert [] + rest == rest && Repeated(avg, 0) + UnitsOf(rest) == UnitsOf(rest);
    }
  }

  lemma Split(reach: nat, avg: real, more: seq<real>, remaining: nat)
    ensures var f := if reach < remaining then reach else remaining;
            First(Repeated(avg, reach) + more, remaining) == Repeated(avg, f) + First(more, remaining - f)
  {
  }

  /** A send's tries: two limits, and a third for a sale that closes. */
  function Tries(closing: bool, side: OrderSide): nat {
    if closing && side == Sell then 3 else 2
  }

  /** How many units those tries are offered. */
  function Reach(closing: bool, side: OrderSide, answers: seq<Answer>): nat {
    |Offered(answers, Tries(closing, side))|
  }

  /** A send takes its units from the front of what its tries are offered: all of it, or the quantity. */
  lemma {:induction false} SendTakes(closing: bool, side: OrderSide, quantity: nat, answers: seq<Answer>)
    ensures var pieces, offered := Pieces(closing, side, quantity, answers), Offered(answers, Tries(closing, side));
            && UnitsOf(pieces) == First(offered, quantity)
            && Total(pieces) == Min(quantity, |offered|) && Value(pieces) == Sum(First(offered, quantity))
  {
    AttemptsTake(1, Tries(closing, side), quantity, answers);
    UnitsAre(Pieces(closing, side, quantity, answers));
  }

  // ----- the books behind the answers -----

  /** An attempt at `limit` for `quantity` units against a book, as an answer. */
  ghost predicate IsAnswer(answer: Answer, side: OrderSide, book: BookSide, limit: int, quantity: nat) {
    answer.Depth? && exists got :: IsGot(answer, side, book, limit, quantity, got)
  }

  ghost predicate IsGot(answer: Answer, side: OrderSide, book: BookSide, limit: int, quantity: nat, got: Got)
    requires answer.Depth?
  {
    && Fills(side, book, limit, quantity, got) && Min(answer.reach, quantity) == got.filled
    && (got.filled > 0 ==> Times(answer.avg, got.filled as real) == got.cost as real)
  }

  /** Its average is within the limit, so the stored price is too. */
  lemma {:induction false} AnswerWithinLimit(answer: Answer, side: OrderSide, book: BookSide, limit: int,
                                             quantity: nat, leg: Leg)
    requires IsAnswer(answer, side, book, limit, quantity) && answer.reach > 0 && quantity > 0
    ensures var price := RowOf(leg, side, Piece(Min(answer.reach, quantity), answer.avg)).price;
            if side == Buy then price <= limit else price >= limit
  {
    var got :| IsGot(answer, side, book, limit, quantity, got);
    FillWithinLimit(side, book, limit, quantity, got);
    AverageWithin(answer.avg, got.filled, got.cost, limit);
    RowWithinLimit(leg, side, Piece(Min(answer.reach, quantity), answer.avg), limit);
  }

  lemma AverageWithin(avg: real, n: nat, cost: int, limit: int)
    requires n > 0 && Times(avg, n as real) == cost as real
    ensures cost <= Cost(limit, n) ==> avg <= limit as real
    ensures cost >= Cost(limit, n) ==> avg >= limit as real
  {
    assert Cost(limit, n) as real == Times(limit as real, n as real);
    if avg > limit as real {
      Grows(limit as real, avg, n);
    } else if avg < limit as real {
      Grows(avg, limit as real, n);
    }
  }

  lemma {:induction false} Grows(a: real, b: real, n: nat)
    requires a < b && n > 0
    ensures Times(a, n as real) < Times(b, n as real)
  {
    OneMore(a, n - 1);
    OneMore(b, n - 1);
    if n > 1 {
      Grows(a, b, n - 1);
    }
  }

  /** A send whose first book has enough at the touch fills in full at that price, at once. Only a sale into a bid
      below one tick does not. */
  lemma {:induction false} TouchCompletes(closing: bool, side: OrderSide, quantity: nat, answers: seq<Answer>,
                                          bid: int, ask: int, terms: Terms, book: BookSide)
    requires quantity > 0 && answers != [] && (side == Sell ==> bid >= terms.tick)
    requires Best(book.ladder).Some? && quantity <= Best(book.ladder).value.quantity
    requires Best(book.ladder).value.price == if side == Buy then ask else bid
    requires var limit := NextAttempt(1, side, bid, ask, terms, closing && side == Sell).value.price;
             IsAnswer(answers[0], side, book, limit, quantity)
    ensures Pieces(closing, side, quantity, answers)
         == [Piece(quantity, (if side == Buy then ask else bid) as real)]
  {
    var limit := NextAttempt(1, side, bid, ask, terms, closing && side == Sell).value.price;
    var touch := if side == Buy then ask else bid;
    var got :| IsGot(answers[0], side, book, limit, quantity, got);
    AttemptTakesTouch(1, side, bid, ask, terms, closing && side == Sell, book, quantity, got);
    assert got == Got(quantity, Cost(touch, quantity));
    AverageWithin(answers[0].avg, quantity, Cost(touch, quantity), touch);
    OneAttemptDoes(closing, side, quantity, answers);
  }

  lemma {:induction false} OneAttemptDoes(closing: bool, side: OrderSide, quantity: nat, answers: seq<Answer>)
    requires quantity > 0 && answers != [] && answers[0].Depth? && answers[0].reach >= quantity
    ensures Pieces(closing, side, quantity, answers) == [Piece(quantity, answers[0].avg)]
  {
    assert Attempts(2, Tries(closing, side), 0, answers[1..]) == [];
    assert [Piece(quantity, answers[0].avg)] + [] == [Piece(quantity, answers[0].avg)];
  }

  // ----- the roll -----

  /** The three ways a roll ends, by what is offered: the sale needs every unit held, in three tries, and the
      purchase every unit missing, in two. What an incomplete roll is left with is what three tries at selling it
      back do not take. */
  lemma {:induction false} RollEndsWhen(b: Book, held: Leg, next: Leg, q: nat, a: RollAnswers)
    requires RollLegs(held, next, q) && OneMonth(b.fills, held.contract, next.contract, q)
    ensures var (b', outcome) := RollPass(b, held, next, a);
            var have, missing := Net(b.fills, held.contract), q - Net(b.fills, next.contract);
            var sells, buys, backs := Reach(true, Sell, a.sell), Reach(false, Buy, a.buy), Reach(true, Sell, a.back);
            && (outcome == PartialRoll <==> sells < have)
            && (outcome == Rolled <==> sells >= have && buys >= missing)
            && (outcome == RollIncomplete <==> sells >= have && buys < missing)
            && Net(b'.fills, held.contract) == have - Min(have, sells)
            && (outcome == RollIncomplete ==>
                var bought := q - missing + buys; Net(b'.fills, next.contract) == bought - Min(bought, backs))
  {
    if Reach(true, Sell, a.sell) < Net(b.fills, held.contract) {
      RollHalts(b, held, next, a);
    } else {
      RollBuys(b, held, next, q, a);
    }
  }

  lemma RollHalts(b: Book, held: Leg, next: Leg, a: RollAnswers)
    requires held.contract != next.contract && Reach(true, Sell, a.sell) < Net(b.fills, held.contract)
    ensures var (b', outcome) := RollPass(b, held, next, a);
            && outcome == PartialRoll
            && Net(b'.fills, held.contract) == Net(b.fills, held.contract) - Reach(true, Sell, a.sell)
  {
    SaleLeaves(b, held, next, a);
  }

  lemma RollBuys(b: Book, held: Leg, next: Leg, q: nat, a: RollAnswers)
    requires RollLegs(held, next, q) && OneMonth(b.fills, held.contract, next.contract, q)
    requires Reach(true, Sell, a.sell) >= Net(b.fills, held.contract)
    ensures var (b', outcome) := RollPass(b, held, next, a);
            var was, buys, backs := Net(b.fills, next.contract), Reach(false, Buy, a.buy), Reach(true, Sell, a.back);
            && outcome == (if buys >= q - was then Rolled else RollIncomplete)
            && Net(b'.fills, held.contract) == 0
            && (outcome == RollIncomplete ==> Net(b'.fills, next.contract) == was + buys - Min(was + buys, backs))
  {
    BoughtIs(b, held, next, q, a);
    AfterTheSale(b, held, next, a);
  }

  lemma BoughtIs(b: Book, held: Leg, next: Leg, q: nat, a: RollAnswers)
    requires RollLegs(held, next, q) && OneMonth(b.fills, held.contract, next.contract, q)
    requires Reach(true, Sell, a.sell) >= Net(b.fills, held.contract)
    ensures Net(AfterSale(b, held, a), held.contract) == 0
    ensures var bought := AfterBuy(b, held, next, a);
            var all := Sold(bought, next, a);
            var was, units := Net(b.fills, next.contract), Net(bought, next.contract);
            && units == was + Min(q - was, Reach(false, Buy, a.buy)) && Net(bought, held.contract) == 0
            && Net(all, held.contract) == 0 && Net(all, next.contract) == units - Min(units, Reach(true, Sell, a.back))
  {
    var sold := AfterSale(b, held, a);
    SaleLeaves(b, held, next, a);
    PurchaseLeaves(sold, b, held, next, a);
    BackLeaves(AfterBuy(b, held, next, a), held, next, a);
  }

  lemma AfterTheSale(b: Book, held: Leg, next: Leg, a: RollAnswers)
    requires Net(AfterSale(b, held, a), held.contract) == 0 && Net(AfterBuy(b, held, next, a), held.contract) == 0
    requires Net(Sold(AfterBuy(b, held, next, a), next, a), held.contract) == 0
    ensures var (b', outcome) := RollPass(b, held, next, a);
            var bought := AfterBuy(b, held, next, a);
            var units := Net(bought, next.contract);
            && outcome == (if units < next.quantity then RollIncomplete else Rolled)
            && Net(b'.fills, held.contract) == 0
            && Net(b'.fills, next.contract)
            == if units < next.quantity then Net(Sold(bought, next, a), next.contract) else units
  {
  }

  /** With the sale back. */
  function Sold(bought: seq<Row>, next: Leg, a: RollAnswers): seq<Row> {
    bought + Rows(next, Sell, BackPieces(bought, next, a))
  }

  lemma SaleLeaves(b: Book, held: Leg, next: Leg, a: RollAnswers)
    requires held.contract != next.contract && Net(b.fills, held.contract) >= 0
    ensures var sold, have := AfterSale(b, held, a), Net(b.fills, held.contract);
            && Net(sold, held.contract) == have - Min(have, Reach(true, Sell, a.sell))
            && Net(sold, next.contract) == Net(b.fills, next.contract)
  {
    var pieces, have := SellPieces(b, held, a), Net(b.fills, held.contract);
    if have > 0 {
      SendTakes(true, Sell, have, a.sell);
    }
    NetAfter(b.fills, held, Sell, pieces, held.contract);
    NetAfter(b.fills, held, Sell, pieces, next.contract);
  }

  lemma PurchaseLeaves(sold: seq<Row>, b: Book, held: Leg, next: Leg, a: RollAnswers)
    requires held.contract != next.contract && sold == AfterSale(b, held, a)
    requires Net(sold, next.contract) <= next.quantity
    ensures var bought, missing := AfterBuy(b, held, next, a), next.quantity - Net(sold, next.contract);
            && Net(bought, next.contract) == Net(sold, next.contract) + Min(missing, Reach(false, Buy, a.buy))
            && Net(bought, held.contract) == Net(sold, held.contract)
  {
    var pieces, missing := BuyPieces(sold, next, a), next.quantity - Net(sold, next.contract);
    if missing > 0 {
      SendTakes(false, Buy, missing, a.buy);
    }
    NetAfter(sold, next, Buy, pieces, next.contract);
    NetAfter(sold, next, Buy, pieces, held.contract);
  }

  lemma BackLeaves(bought: seq<Row>, held: Leg, next: Leg, a: RollAnswers)
    requires held.contract != next.contract && Net(bought, next.contract) >= 0
    ensures var all, have := Sold(bought, next, a), Net(bought, next.contract);
            && Net(all, next.contract) == have - Min(have, Reach(true, Sell, a.back))
            && Net(all, held.contract) == Net(bought, held.contract)
  {
    var have := Net(bought, next.contract);
    if have > 0 {
      SendTakes(true, Sell, have, a.back);
    }
    NetAfter(bought, next, Sell, BackPieces(bought, next, a), next.contract);
    NetAfter(bought, next, Sell, BackPieces(bought, next, a), held.contract);
  }

  // ----- the exit -----

  function AnswersFor(answers: seq<seq<Answer>>, i: nat): seq<Answer> {
    if i < |answers| then answers[i] else []
  }

  /** A leg of the contract whose answers offer all its units. */
  ghost predicate Covers(legs: seq<Leg>, answers: seq<seq<Answer>>, contract: string, units: int) {
    exists i :: 0 <= i < |legs| && legs[i].contract == contract && units <= Reach(true, Sell, AnswersFor(answers, i))
  }

  /** A contract with units has such a leg. */
  ghost predicate Sells(fills: seq<Row>, legs: seq<Leg>, answers: seq<seq<Answer>>, contract: string) {
    Net(fills, contract) > 0 ==> Covers(legs, answers, contract, Net(fills, contract))
  }

  /** What selling the legs leaves of one contract. */
  lemma {:induction false} SellLegsLeaves(fills: seq<Row>, legs: seq<Leg>, net: map<string, int>,
                                          answers: seq<seq<Answer>>, contract: string)
    requires Distinct(legs) && forall i :: 0 <= i < |legs| && legs[i].contract in net ==> net[legs[i].contract] >= 0
    ensures var after := Net(SellLegs(fills, legs, net, answers), contract);
            && ((forall i :: 0 <= i < |legs| ==> legs[i].contract != contract) || contract !in net ==>
                after == Net(fills, contract))
            && forall i :: 0 <= i < |legs| && legs[i].contract == contract && contract in net ==>
                after == Net(fills, contract) - Min(net[contract], Reach(true, Sell, AnswersFor(answers, i)))
    decreases |legs|
  {
    if legs != [] {
      var units := if legs[0].contract in net then net[legs[0].contract] else 0;
      var mine, rest := AnswersFor(answers, 0), if answers == [] then [] else answers[1..];
      var pieces := if units > 0 then Pieces(true, Sell, units, mine) else [];
      if units > 0 {
        SendTakes(true, Sell, units, mine);
      }
      NetAfter(fills, legs[0], Sell, pieces, contract);
      var tail := legs[1..];
      assert Distinct(tail) by {
        forall i, j | 0 <= i < j < |tail| ensures tail[i].contract != tail[j].contract {
          assert legs[i + 1].contract != legs[j + 1].contract;
        }
      }
      SellLegsLeaves(fills + Rows(legs[0], Sell, pieces), tail, net, rest, contract);
      forall i | 0 <= i < |tail| ensures tail[i] == legs[i + 1] && AnswersFor(rest, i) == AnswersFor(answers, i + 1) {
      }
    }
  }

  /** One pass closes the position exactly when every contract with units has a leg that is offered all of them in
      three tries. */
  lemma {:induction false} ExitClosesWhen(b: Book, legs: seq<Leg>, answers: seq<seq<Answer>>)
    requires NeverShort(b.fills) && Distinct(legs)
    ensures ExitPass(b, legs, answers).status == Closed
       <==> forall c :: Sells(b.fills, legs, answers, c)
  {
    var after := SellLegs(b.fills, legs, NetMap(b.fills), answers);
    forall c ensures Net(after, c) == 0 <==> Sells(b.fills, legs, answers, c) {
      LegLeaves(b, legs, answers, c);
    }
    if forall c :: Sells(b.fills, legs, answers, c) {
      assert IsFlat(after);
    } else {
      var c :| !Sells(b.fills, legs, answers, c);
      assert Net(after, c) != 0;
    }
  }

  lemma LegLeaves(b: Book, legs: seq<Leg>, answers: seq<seq<Answer>>, c: string)
    requires NeverShort(b.fills) && Distinct(legs)
    ensures var after := SellLegs(b.fills, legs, NetMap(b.fills), answers);
            Net(after, c) == 0 <==> Sells(b.fills, legs, answers, c)
  {
    var net := NetMap(b.fills);
    assert NeverShort(b.fills) && Net(b.fills, c) >= 0;
    SellLegsLeaves(b.fills, legs, net, answers, c);
    if c !in net {
      NoRowsNoNet(b.fills, c);
    } else if i :| 0 <= i < |legs| && legs[i].contract == c {
      forall j | 0 <= j < |legs| && legs[j].contract == c ensures j == i {
        OneLegEach(legs, i, j);
      }
    }
  }

  lemma OneLegEach(legs: seq<Leg>, i: nat, j: nat)
    requires Distinct(legs) && i < |legs| && j < |legs| && legs[i].contract == legs[j].contract
    ensures i == j
  {
  }

  // ----- runs -----

  /** A pass more: taken when the exit is confirmed or filling, and otherwise nothing. */
  lemma {:induction false} ExitRunMore(b: Book, legs: seq<Leg>, passes: seq<seq<seq<Answer>>>, last: seq<seq<Answer>>)
    ensures var so := ExitRun(b, legs, passes);
            ExitRun(b, legs, passes + [last])
            == if so.status == Confirmed || so.status == Filling then ExitPass(so, legs, last) else so
    decreases |passes|
  {
    if passes == [] {
      assert [] + [last] == [last] && [last][1..] == [];
    } else if PendingExit(b.status) {
      ExitRunMore(ExitPass(b, legs, passes[0]), legs, passes[1..], last);
      assert (passes + [last])[1..] == passes[1..] + [last];
    }
  }

  /** The pass offers every contract all that the position held at `fills`. */
  ghost predicate SellsAll(fills: seq<Row>, legs: seq<Leg>, answers: seq<seq<Answer>>) {
    forall c :: Sells(fills, legs, answers, c)
  }

  lemma {:induction false} FewerToSell(from: seq<Row>, fills: seq<Row>, legs: seq<Leg>, answers: seq<seq<Answer>>)
    requires Fallen(from, fills) && SellsAll(from, legs, answers)
    ensures SellsAll(fills, legs, answers)
  {
    forall c ensures Sells(fills, legs, answers, c) {
      assert Net(fills, c) <= Net(from, c);
      assert Sells(from, legs, answers, c);
    }
  }

  /** One pass that offers everything closes the position, whatever the passes before it did. */
  lemma {:induction false} ExitRunCloses(b: Book, legs: seq<Leg>, passes: seq<seq<seq<Answer>>>, k: nat)
    requires NeverShort(b.fills) && Distinct(legs) && PendingExit(b.status)
    requires k < |passes| && SellsAll(b.fills, legs, passes[k])
    ensures ExitRun(b, legs, passes).status == Closed
    decreases |passes|
  {
    ExitPassSafe(b, legs, passes[0]);
    var next := ExitPass(b, legs, passes[0]);
    OnlyFallsEnds(b.fills, next.fills);
    if k == 0 {
      ExitClosesWhen(b, legs, passes[0]);
    } else if next.status != Closed {
      assert passes[1..][k - 1] == passes[k];
      FewerToSell(b.fills, next.fills, legs, passes[k]);
      ExitRunCloses(next, legs, passes[1..], k - 1);
    }
  }

  /** A roll that is retried until one pass is offered the whole quantity to sell, and is always offered it to
      buy, ends rolled. */
  lemma {:induction false} RollRunRolls(b: Book, held: Leg, next: Leg, q: nat, passes: seq<RollAnswers>, k: nat)
    requires RollLegs(held, next, q) && OneMonth(b.fills, held.contract, next.contract, q)
    requires k < |passes| && Reach(true, Sell, passes[k].sell) >= q
    requires forall j :: 0 <= j < |passes| ==> Reach(false, Buy, passes[j].buy) >= q
    ensures RollRun(b, held, next, passes).1 == Rolled
    decreases |passes|
  {
    var (b', outcome) := RollPass(b, held, next, passes[0]);
    FirstPass(b, held, next, q, passes[0]);
    if outcome == PartialRoll {
      assert passes[1..][k - 1] == passes[k];
      RollRunRolls(b', held, next, q, passes[1..], k - 1);
    }
  }

  lemma FirstPass(b: Book, held: Leg, next: Leg, q: nat, a: RollAnswers)
    requires RollLegs(held, next, q) && OneMonth(b.fills, held.contract, next.contract, q)
    requires Reach(false, Buy, a.buy) >= q
    ensures var (b', outcome) := RollPass(b, held, next, a);
            && outcome == (if Reach(true, Sell, a.sell) >= Net(b.fills, held.contract) then Rolled else PartialRoll)
            && Net(b.fills, held.contract) <= q && OneMonth(b'.fills, held.contract, next.contract, q)
  {
    RollEndsWhen(b, held, next, q, a);
    RollPassSafe(b, held, next, q, a);
  }
}
