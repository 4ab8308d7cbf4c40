/** The F2 future: its orders, its exit and its calendar roll (`_send_future`, `execute_exit` and
    `execute_roll`, kite-momentum-rebalancer/app/fno_execute.py).

    The fill table only grows, so its prefixes are the intermediate states: a property of every
    prefix holds at every moment of every pass, whatever the broker answers. */
module FutureOrders {
  import opened Options
  import opened Money
  import opened Ladder

  /** A row of the fill table; the price is stored in whole paise. */
  datatype Row = Row(leg: nat, contract: string, side: OrderSide, quantity: nat, price: int)

  /** What the broker answers to one attempt: no two-sided quote, a refusal, or a book that fills up to
      `reach` units at the attempt's limit, at an average of `avg` paise. */
  datatype Answer = NoQuote | Refusal | Depth(reach: nat, avg: real)

  datatype Leg = Leg(id: nat, contract: string, quantity: nat)

  function Units(side: OrderSide, quantity: int): int {
    if side == Buy then quantity else -quantity
  }

  function Signed(r: Row): int {
    Units(r.side, r.quantity)
  }

  /** `net_by_symbol`: signed units of one contract over a position's fills. */
  function Net(fills: seq<Row>, contract: string): int {
    if fills == [] then 0
    else Net(fills[..|fills| - 1], contract)
         + if fills[|fills| - 1].contract == contract then Signed(fills[|fills| - 1]) else 0
  }

  lemma {:induction false} NetConcat(a: seq<Row>, b: seq<Row>, contract: string)
    ensures Net(a + b, contract) == Net(a, contract) + Net(b, contract)
  {
    if b == [] {
      assert a + b == a;
    } else {
      NetConcat(a, b[..|b| - 1], contract);
      assert (a + b)[..|a + b| - 1] == a + b[..|b| - 1];
    }
  }

  // ----- one send: at most three attempts -----

  /** A filled piece of an order: units, and the exact average before rounding. */
  datatype Piece = Piece(quantity: nat, avg: real)

  /** Attempts `n..last` for `remaining` units. A missing answer is a missing quote. */
  function Attempts(n: nat, last: nat, remaining: nat, answers: seq<Answer>): seq<Piece>
    decreases |answers|
  {
    if n > last || remaining == 0 || answers == [] then []
    else
      match answers[0]
      case Depth(reach, avg) =>
        var f := if reach < remaining then reach else remaining;
        (if f > 0 then [Piece(f, avg)] else []) + Attempts(n + 1, last, remaining - f, answers[1..])
      case _ => []
  }

  /** Two limits, and a third marketable attempt for a sale that closes. */
  function Pieces(closing: bool, side: OrderSide, quantity: nat, answers: seq<Answer>): seq<Piece> {
    Attempts(1, if closing && side == Sell then 3 else 2, quantity, answers)
  }

  function Total(pieces: seq<Piece>): nat {
    if pieces == [] then 0 else pieces[0].quantity + Total(pieces[1..])
  }

  function RowOf(leg: Leg, side: OrderSide, p: Piece): Row {
    Row(leg.id, leg.contract, side, p.quantity, Quantize(p.avg))
  }

  function Rows(leg: Leg, side: OrderSide, pieces: seq<Piece>): seq<Row> {
    if pieces == [] then []
    else [RowOf(leg, side, pieces[0])] + Rows(leg, side, pieces[1..])
  }

  /** An average on the side of a limit that the order asked for. */
  predicate WithinLimit(side: OrderSide, price: real, limit: int) {
    if side == Buy then price <= limit as real else price >= limit as real
  }

  /** Rounding to the paisa never takes a row's price over a limit in whole paise. */
  lemma RowWithinLimit(leg: Leg, side: OrderSide, p: Piece, limit: int)
    requires WithinLimit(side, p.avg, limit)
    ensures WithinLimit(side, RowOf(leg, side, p).price as real, limit)
  {
    QuantizeError(limit as real);
    if side == Buy {
      QuantizeMonotone(p.avg, limit as real);
    } else {
      QuantizeMonotone(limit as real, p.avg);
    }
  }

  lemma {:induction false} AttemptsTotal(n: nat, last: nat, remaining: nat, answers: seq<Answer>)
    ensures Total(Attempts(n, last, remaining, answers)) <= remaining
    decreases |answers|
  {
    if !(n > last || remaining == 0 || answers == []) && answers[0].Depth? {
      var f := if answers[0].reach < remaining then answers[0].reach else remaining;
      var rest := Attempts(n + 1, last, remaining - f, answers[1..]);
      AttemptsTotal(n + 1, last, remaining - f, answers[1..]);
      assert f == 0 ==> [] + rest == rest;
      assert f > 0 ==> ([Piece(f, answers[0].avg)] + rest)[1..] == rest;
    }
  }

  lemma {:induction false} RowsNet(leg: Leg, side: OrderSide, pieces: seq<Piece>, contract: string)
    ensures Net(Rows(leg, side, pieces), contract) ==
            if contract != leg.contract then 0 else Units(side, Total(pieces))
  {
    if pieces != [] {
      RowsNet(leg, side, pieces[1..], contract);
      var r := RowOf(leg, side, pieces[0]);
      NetConcat([r], Rows(leg, side, pieces[1..]), contract);
      assert [r][..0] == [];
    }
  }

  // ----- every prefix -----

  /** A walk over one contract from `net`: every prefix of the appended rows stays between where it
      started and where it ends. */
  lemma {:induction false} PrefixBetween(fills: seq<Row>, leg: Leg, side: OrderSide, pieces: seq<Piece>, k: nat,
                                         contract: string)
    requires |fills| <= k <= |fills + Rows(leg, side, pieces)|
    ensures var n, all := Net(fills, contract), fills + Rows(leg, side, pieces);
            if contract != leg.contract then Net(all[..k], contract) == n
            else if side == Buy then n <= Net(all[..k], contract) <= n + Total(pieces)
            else n - Total(pieces) <= Net(all[..k], contract) <= n
    decreases |pieces|
  {
    if k == |fills| {
      assert (fills + Rows(leg, side, pieces))[..k] == fills;
    } else {
      var r := Rows(leg, side, pieces)[0];
      var rest := pieces[1..];
      assert Rows(leg, side, pieces) == [r] + Rows(leg, side, rest);
      assert (fills + [r]) + Rows(leg, side, rest) == fills + Rows(leg, side, pieces);
      PrefixBetween(fills + [r], leg, side, rest, k, contract);
      assert (fills + [r])[..|fills|] == fills;
    }
  }

  // ----- the exit -----

  datatype Status = Issued | Confirmed | Filling | Open | Closed | AbandonedPartial

  /** The position as the passes see it. `entryAvg` is the held contract's entry, in paise. */
  datatype Carry = Carry(rolls: nat, realised: int, entryAvg: int)
  datatype Book = Book(fills: seq<Row>, status: Status, open: bool, carry: Carry)

  /** Sells each leg's units as read before the first order. */
  function SellLegs(fills: seq<Row>, legs: seq<Leg>, net: map<string, int>, answers: seq<seq<Answer>>): seq<Row>
    decreases |legs|
  {
    if legs == [] then fills
    else
      var units := if legs[0].contract in net then net[legs[0].contract] else 0;
      var mine := if answers == [] then [] else answers[0];
      var more := if units > 0 then Rows(legs[0], Sell, Pieces(true, Sell, units, mine)) else [];
      SellLegs(fills + more, legs[1..], net, if answers == [] then [] else answers[1..])
  }

  function Contracts(fills: seq<Row>): set<string> {
    set r | r in fills :: r.contract
  }

  function NetMap(fills: seq<Row>): map<string, int> {
    map c | c in Contracts(fills) :: Net(fills, c)
  }

  ghost predicate IsFlat(fills: seq<Row>) {
    forall c :: Net(fills, c) == 0
  }

  ghost predicate NeverShort(fills: seq<Row>) {
    forall c :: Net(fills, c) >= 0
  }

  /** No contract has more units than `from` had, and none is short. */
  ghost predicate Fallen(from: seq<Row>, fills: seq<Row>) {
    forall c :: 0 <= Net(fills, c) <= Net(from, c)
  }

  /** At every moment after `from`. */
  ghost predicate OnlyFalls(from: seq<Row>, fills: seq<Row>) {
    && |from| <= |fills| && fills[..|from|] == from
    && forall k :: |from| <= k <= |fills| ==> Fallen(from, fills[..k])
  }

  lemma OnlyFallsEnds(from: seq<Row>, fills: seq<Row>)
    requires OnlyFalls(from, fills)
    ensures Fallen(from, fills) && NeverShort(fills)
  {
    assert fills[..|fills|] == fills;
    assert Fallen(from, fills[..|fills|]);
  }

  lemma {:induction false} NoRowsNoNet(fills: seq<Row>, c: string)
    requires c !in Contracts(fills)
    ensures Net(fills, c) == 0
  {
    if fills != [] {
      assert fills[|fills| - 1] in fills;
      assert forall r :: r in fills[..|fills| - 1] ==> r in fills;
      NoRowsNoNet(fills[..|fills| - 1], c);
    }
  }

  /** `execute_exit` for a future: one pass. */
  ghost function ExitPass(b: Book, legs: seq<Leg>, answers: seq<seq<Answer>>): Book {
    var fills := SellLegs(b.fills, legs, NetMap(b.fills), answers);
    if IsFlat(fills) then b.(fills := fills, status := Closed, open := false)
    else b.(fills := fills, status := Filling)
  }

  /** The legs of an exit plan: one per contract. */
  ghost predicate Distinct(legs: seq<Leg>) {
    forall i, j :: 0 <= i < j < |legs| ==> legs[i].contract != legs[j].contract
  }

  lemma OnlyFallsTrans(a: seq<Row>, b: seq<Row>, c: seq<Row>)
    requires OnlyFalls(a, b) && OnlyFalls(b, c)
    ensures OnlyFalls(a, c)
  {
    assert c[..|a|] == b[..|a|];
    OnlyFallsEnds(a, b);
    forall k | |a| <= k <= |c| ensures Fallen(a, c[..k]) {
      if k < |b| {
        assert c[..k] == b[..k];
      } else {
        assert Fallen(b, c[..k]);
      }
    }
  }

  lemma {:induction false} SaleOnlyFalls(fills: seq<Row>, leg: Leg, pieces: seq<Piece>)
    requires NeverShort(fills) && Total(pieces) <= Net(fills, leg.contract)
    ensures OnlyFalls(fills, fills + Rows(leg, Sell, pieces))
  {
    var all := fills + Rows(leg, Sell, pieces);
    assert all[..|fills|] == fills;
    forall k | |fills| <= k <= |all| ensures Fallen(fills, all[..k]) {
      forall c ensures 0 <= Net(all[..k], c) <= Net(fills, c) {
        PrefixBetween(fills, leg, Sell, pieces, k, c);
      }
    }
  }

  lemma {:induction false} SellLegsFalls(fills: seq<Row>, legs: seq<Leg>, net: map<string, int>,
                                         answers: seq<seq<Answer>>)
    requires NeverShort(fills) && Distinct(legs)
    requires forall i :: 0 <= i < |legs| && legs[i].contract in net ==>
          net[legs[i].contract] == Net(fills, legs[i].contract)
    ensures OnlyFalls(fills, SellLegs(fills, legs, net, answers))
    decreases |legs|
  {
    if legs == [] {
      assert forall k :: |fills| <= k <= |fills| ==> fills[..k] == fills;
    } else {
      var units := if legs[0].contract in net then net[legs[0].contract] else 0;
      var mine := if answers == [] then [] else answers[0];
      var pieces := if units > 0 then Pieces(true, Sell, units, mine) else [];
      if units > 0 {
        AttemptsTotal(1, 3, units, mine);
      }
      assert NeverShort(fills) && Net(fills, legs[0].contract) >= 0;
      SaleOnlyFalls(fills, legs[0], pieces);
      var next := fills + Rows(legs[0], Sell, pieces);
      OnlyFallsEnds(fills, next);
      forall c | c != legs[0].contract ensures Net(next, c) == Net(fills, c) {
        NetAfter(fills, legs[0], Sell, pieces, c);
      }
      var rest := if answers == [] then [] else answers[1..];
      forall i | 0 <= i < |legs[1..]| && legs[1..][i].contract in net
        ensures net[legs[1..][i].contract] == Net(next, legs[1..][i].contract)
      {
        assert legs[1..][i] == legs[i + 1];
      }
      assert Distinct(legs[1..]);
      SellLegsFalls(next, legs[1..], net, rest);
      OnlyFallsTrans(fills, next, SellLegs(next, legs[1..], net, rest));
    }
  }

  /** A pass never buys and never oversells, at any moment; and it closes the position exactly when it
      ends with every contract flat, leaving the plan to be picked up again otherwise. */
  lemma ExitPassSafe(b: Book, legs: seq<Leg>, answers: seq<seq<Answer>>)
    requires NeverShort(b.fills) && Distinct(legs)
    ensures var b' := ExitPass(b, legs, answers);
            && OnlyFalls(b.fills, b'.fills) && NeverShort(b'.fills)
            && (b'.status == Closed <==> IsFlat(b'.fills))
            && (!IsFlat(b'.fills) ==> b'.status == Filling && b'.open == b.open)
            && (IsFlat(b'.fills) ==> !b'.open) && b'.carry == b.carry
  {
    var net := NetMap(b.fills);
    forall i | 0 <= i < |legs| && legs[i].contract in net
      ensures net[legs[i].contract] == Net(b.fills, legs[i].contract)
    {
    }
    SellLegsFalls(b.fills, legs, net, answers);
    OnlyFallsEnds(b.fills, SellLegs(b.fills, legs, net, answers));
  }

  /** Every exit plan that is confirmed or filling is picked up by the next tick. */
  predicate PendingExit(s: Status) {
    s == Confirmed || s == Filling
  }

  /** Passes over ticks, while the plan is pending. */
  ghost function ExitRun(b: Book, legs: seq<Leg>, passes: seq<seq<seq<Answer>>>): Book
    decreases |passes|
  {
    if passes == [] || !PendingExit(b.status) then b
    else ExitRun(ExitPass(b, legs, passes[0]), legs, passes[1..])
  }

  /** Over any number of passes and any answers: units only ever fall, never below zero, and the
      position is closed exactly when it is flat; until then the plan stays pending. */
  lemma {:induction false} ExitRunSafe(b: Book, legs: seq<Leg>, passes: seq<seq<seq<Answer>>>)
    requires NeverShort(b.fills) && Distinct(legs) && b.open && PendingExit(b.status) && !IsFlat(b.fills)
    ensures var b' := ExitRun(b, legs, passes);
            && OnlyFalls(b.fills, b'.fills)
            && (b'.open <==> !IsFlat(b'.fills)) && (b'.open <==> PendingExit(b'.status))
            && (b'.status == Closed <==> IsFlat(b'.fills))
    decreases |passes|
  {
    if passes == [] {
      assert forall k :: |b.fills| <= k <= |b.fills| ==> b.fills[..k] == b.fills;
    } else {
      ExitPassSafe(b, legs, passes[0]);
      var next := ExitPass(b, legs, passes[0]);
      if PendingExit(next.status) {
        ExitRunSafe(next, legs, passes[1..]);
        OnlyFallsTrans(b.fills, next.fills, ExitRun(next, legs, passes[1..]).fills);
      }
    }
  }

  // ----- the roll -----

  datatype RollAnswers = RollAnswers(sell: seq<Answer>, buy: seq<Answer>, back: seq<Answer>)
  datatype RollOutcome = PartialRoll | Rolled | RollIncomplete

  /** Between two months of one quantity: neither is short, both are never held at once, and there is
      never more than the quantity. */
  ghost predicate OneMonth(fills: seq<Row>, old_: string, next: string, q: nat) {
    && 0 <= Net(fills, old_) <= q && 0 <= Net(fills, next) <= q
    && (Net(fills, old_) == 0 || Net(fills, next) == 0)
  }

  /** It holds at every moment from `from` on. */
  ghost predicate OneMonthThroughout(from: seq<Row>, fills: seq<Row>, old_: string, next: string, q: nat) {
    && |from| <= |fills| && fills[..|from|] == from
    && forall k :: |from| <= k <= |fills| ==> OneMonth(fills[..k], old_, next, q)
  }

  /** A leg's units and their stored value in one direction, over every fill it ever had. */
  function Qty(fills: seq<Row>, leg: nat, side: OrderSide): nat {
    if fills == [] then 0
    else
      var r := fills[|fills| - 1];
      Qty(fills[..|fills| - 1], leg, side) + if r.leg == leg && r.side == side then r.quantity else 0
  }

  function Val(fills: seq<Row>, leg: nat, side: OrderSide): int {
    if fills == [] then 0
    else
      var r := fills[|fills| - 1];
      Val(fills[..|fills| - 1], leg, side) + if r.leg == leg && r.side == side then r.quantity * r.price else 0
  }

  /** The money average of `units` worth `value`; none of no units. */
  function AvgOf(units: nat, value: real): Option<int> {
    if units == 0 then None else Some(Quantize(value / units as real))
  }

  /** `_fill_avg`: the leg's average in one direction. */
  function FillAvg(fills: seq<Row>, leg: nat, side: OrderSide): Option<int> {
    AvgOf(Qty(fills, leg, side), Val(fills, leg, side) as real)
  }

  function Worth(p: Piece): real {
    Times(p.avg, p.quantity as real)
  }

  function Value(pieces: seq<Piece>): real {
    if pieces == [] then 0.0 else Worth(pieces[0]) + Value(pieces[1..])
  }

  /** The average `_send_future` returns: over this send's own fills only. */
  function SentAvg(pieces: seq<Piece>): Option<int> {
    AvgOf(Total(pieces), Value(pieces))
  }

  /** `a or b`: a missing or zero price gives way. */
  function Or(a: Option<int>, b: Option<int>): Option<int> {
    if a.Some? && a.value != 0 then a else b
  }

  function SellPieces(b: Book, held: Leg, a: RollAnswers): seq<Piece> {
    if Net(b.fills, held.contract) > 0 then Pieces(true, Sell, Net(b.fills, held.contract), a.sell) else []
  }

  function AfterSale(b: Book, held: Leg, a: RollAnswers): seq<Row> {
    b.fills + Rows(held, Sell, SellPieces(b, held, a))
  }

  function BuyPieces(fills: seq<Row>, next: Leg, a: RollAnswers): seq<Piece> {
    var bought := Net(fills, next.contract);
    if bought < next.quantity then Pieces(false, Buy, next.quantity - bought, a.buy) else []
  }

  function AfterBuy(b: Book, held: Leg, next: Leg, a: RollAnswers): seq<Row> {
    var fills := AfterSale(b, held, a);
    fills + Rows(next, Buy, BuyPieces(fills, next, a))
  }

  function BackPieces(fills: seq<Row>, next: Leg, a: RollAnswers): seq<Piece> {
    var bought := Net(fills, next.contract);
    if bought > 0 then Pieces(true, Sell, bought, a.back) else []
  }

  function Carried(c: Carry, fills: seq<Row>, held: Leg, next: Leg, bought: Option<int>): Carry {
    var sold := FillAvg(fills, held.id, Sell);
    var avg := Or(bought, FillAvg(fills, next.id, Buy));
    Carry(c.rolls + 1, c.realised + if sold.Some? then (sold.value - c.entryAvg) * held.quantity else 0,
          if avg.Some? then avg.value else 0)
  }

  function RolledCarry(b: Book, held: Leg, next: Leg, a: RollAnswers): Carry {
    Carried(b.carry, AfterBuy(b, held, next, a), held, next, SentAvg(BuyPieces(AfterSale(b, held, a), next, a)))
  }

  /** `execute_roll`: one pass. */
  function RollPass(b: Book, held: Leg, next: Leg, a: RollAnswers): (Book, RollOutcome) {
    var sold := AfterSale(b, held, a);
    if Net(b.fills, held.contract) > 0 && Net(sold, held.contract) > 0 then
      (b.(fills := sold, status := Filling), PartialRoll)
    else
      var bought := AfterBuy(b, held, next, a);
      if Net(bought, next.contract) < next.quantity then
        (b.(fills := bought + Rows(next, Sell, BackPieces(bought, next, a)), status := AbandonedPartial, open := false),
         RollIncomplete)
      else (b.(fills := bought, status := Open, carry := RolledCarry(b, held, next, a)), Rolled)
  }

  lemma {:induction false} StepThroughout(from: seq<Row>, fills: seq<Row>, leg: Leg, side: OrderSide,
                                          pieces: seq<Piece>, old_: string, next: string, q: nat)
    requires old_ != next && (leg.contract == old_ || leg.contract == next)
    requires OneMonthThroughout(from, fills, old_, next, q)
    requires if side == Sell then Total(pieces) <= Net(fills, leg.contract)
             else leg.contract == next && Net(fills, old_) == 0 && Net(fills, next) + Total(pieces) <= q
    ensures OneMonthThroughout(from, fills + Rows(leg, side, pieces), old_, next, q)
  {
    var all := fills + Rows(leg, side, pieces);
    assert fills[..|fills|] == fills;
    assert OneMonth(fills[..|fills|], old_, next, q);
    forall k | |from| <= k <= |all| ensures OneMonth(all[..k], old_, next, q) {
      if k < |fills| {
        assert all[..k] == fills[..k];
      } else {
        PrefixBetween(fills, leg, side, pieces, k, old_);
        PrefixBetween(fills, leg, side, pieces, k, next);
      }
    }
    assert all[..|from|] == fills[..|from|];
  }

  lemma {:induction false} NetAfter(fills: seq<Row>, leg: Leg, side: OrderSide, pieces: seq<Piece>, contract: string)
    ensures Net(fills + Rows(leg, side, pieces), contract) == Net(fills, contract) +
            if contract != leg.contract then 0 else Units(side, Total(pieces))
  {
    NetConcat(fills, Rows(leg, side, pieces), contract);
    RowsNet(leg, side, pieces, contract);
  }

  ghost predicate RollLegs(held: Leg, next: Leg, q: nat) {
    held.contract != next.contract && held.id != next.id && held.quantity == next.quantity == q && q > 0
  }

  /** Through one pass, first or retried: at every moment at most one month is held, neither is short and
      the total never exceeds the quantity; `Rolled` is reported only with the old month gone and the
      whole quantity in the next, and a part-sold old month is left for the next pass with nothing
      bought. A roll that could not buy in full is closed with whatever its sell-back could not sell:
      flat exactly when that filled. */
  lemma RollPassSafe(b: Book, held: Leg, next: Leg, q: nat, a: RollAnswers)
    requires RollLegs(held, next, q) && OneMonth(b.fills, held.contract, next.contract, q)
    ensures var (b', outcome) := RollPass(b, held, next, a);
            && OneMonthThroughout(b.fills, b'.fills, held.contract, next.contract, q)
            && OneMonth(b'.fills, held.contract, next.contract, q)
            && (outcome == Rolled ==> Net(b'.fills, held.contract) == 0 && Net(b'.fills, next.contract) == q
                                      && b'.status == Open && b'.open == b.open)
            && (outcome == PartialRoll ==> Net(b'.fills, held.contract) > 0 && Net(b'.fills, next.contract) == 0
                                           && b'.status == Filling && b'.open == b.open)
            && (outcome == RollIncomplete ==> Net(b'.fills, held.contract) == 0 && !b'.open)
    ensures var (b', outcome) := RollPass(b, held, next, a);
            var bought := AfterBuy(b, held, next, a);
            outcome == RollIncomplete ==>
              && Net(b'.fills, next.contract) == Net(bought, next.contract) - Total(BackPieces(bought, next, a))
              && (Net(b'.fills, next.contract) == 0
                <==> Total(BackPieces(bought, next, a)) == Net(bought, next.contract))
  {
    var o, n := held.contract, next.contract;
    assert forall k :: |b.fills| <= k <= |b.fills| ==> b.fills[..k] == b.fills;
    assert OneMonthThroughout(b.fills, b.fills, o, n, q);
    var sell := SellPieces(b, held, a);
    if Net(b.fills, o) > 0 {
      AttemptsTotal(1, 3, Net(b.fills, o), a.sell);
    }
    StepThroughout(b.fills, b.fills, held, Sell, sell, o, n, q);
    NetAfter(b.fills, held, Sell, sell, o);
    NetAfter(b.fills, held, Sell, sell, n);
    var sold := AfterSale(b, held, a);
    assert sold[..|sold|] == sold;
    if !(Net(b.fills, o) > 0 && Net(sold, o) > 0) {
      BuySafe(b, held, next, q, a);
      BackSafe(b.fills, AfterBuy(b, held, next, a), held, next, q, a);
    }
  }

  /** What a pass writes besides its fills. Only a finished roll touches what is carried. */
  lemma RollWrites(b: Book, held: Leg, next: Leg, a: RollAnswers)
    ensures var (b', outcome) := RollPass(b, held, next, a);
            && b'.status == (match outcome
                             case PartialRoll => Filling
                             case Rolled => Open
                             case RollIncomplete => AbandonedPartial)
            && (b'.open <==> b.open && outcome != RollIncomplete)
            && (outcome != Rolled ==> b'.carry == b.carry)
            && (outcome == Rolled ==> b'.carry.rolls == b.carry.rolls + 1)
  {
  }

  lemma Ends(from: seq<Row>, fills: seq<Row>, o: string, n: string, q: nat)
    requires OneMonthThroughout(from, fills, o, n, q)
    ensures OneMonth(fills, o, n, q)
  {
    assert fills[..|fills|] == fills;
    assert OneMonth(fills[..|fills|], o, n, q);
  }

  lemma BuySafe(b: Book, held: Leg, next: Leg, q: nat, a: RollAnswers)
    requires RollLegs(held, next, q)
    requires OneMonthThroughout(b.fills, AfterSale(b, held, a), held.contract, next.contract, q)
    requires Net(AfterSale(b, held, a), held.contract) == 0
    ensures var bought := AfterBuy(b, held, next, a);
            && OneMonthThroughout(b.fills, bought, held.contract, next.contract, q)
            && OneMonth(bought, held.contract, next.contract, q) && Net(bought, held.contract) == 0
  {
    var o, n := held.contract, next.contract;
    var sold := AfterSale(b, held, a);
    Ends(b.fills, sold, o, n, q);
    var buy := BuyPieces(sold, next, a);
    if Net(sold, n) < q {
      AttemptsTotal(1, 2, q - Net(sold, n), a.buy);
    }
    StepThroughout(b.fills, sold, next, Buy, buy, o, n, q);
    NetAfter(sold, next, Buy, buy, o);
    Ends(b.fills, AfterBuy(b, held, next, a), o, n, q);
  }

  lemma {:induction false} BackSafe(from: seq<Row>, bought: seq<Row>, held: Leg, next: Leg, q: nat, a: RollAnswers)
    requires RollLegs(held, next, q)
    requires OneMonthThroughout(from, bought, held.contract, next.contract, q) && Net(bought, held.contract) == 0
    requires OneMonth(bought, held.contract, next.contract, q)
    ensures var all := bought + Rows(next, Sell, BackPieces(bought, next, a));
            && OneMonthThroughout(from, all, held.contract, next.contract, q)
            && OneMonth(all, held.contract, next.contract, q) && Net(all, held.contract) == 0
            && Net(all, next.contract) == Net(bought, next.contract) - Total(BackPieces(bought, next, a))
  {
    var o, n := held.contract, next.contract;
    var back := BackPieces(bought, next, a);
    if Net(bought, n) > 0 {
      AttemptsTotal(1, 3, Net(bought, n), a.back);
    }
    StepThroughout(from, bought, next, Sell, back, o, n, q);
    NetAfter(bought, next, Sell, back, o);
    NetAfter(bought, next, Sell, back, n);
    Ends(from, bought + Rows(next, Sell, back), o, n, q);
  }

  /** Passes until the roll is no longer pending. */
  function RollRun(b: Book, held: Leg, next: Leg, passes: seq<RollAnswers>): (Book, RollOutcome)
    decreases |passes|
  {
    if passes == [] then (b, PartialRoll)
    else
      var (b', outcome) := RollPass(b, held, next, passes[0]);
      if outcome == PartialRoll then RollRun(b', held, next, passes[1..]) else (b', outcome)
  }

  lemma ThroughoutTrans(x: seq<Row>, y: seq<Row>, z: seq<Row>, old_: string, next: string, q: nat)
    requires OneMonthThroughout(x, y, old_, next, q) && OneMonthThroughout(y, z, old_, next, q)
    ensures OneMonthThroughout(x, z, old_, next, q)
  {
    assert z[..|x|] == y[..|x|];
    forall k | |x| <= k <= |z| ensures OneMonth(z[..k], old_, next, q) {
      if k < |y| {
        assert z[..k] == y[..k];
      }
    }
  }

  /** The whole roll, over any number of retried passes. */
  lemma {:induction false} RollRunSafe(b: Book, held: Leg, next: Leg, q: nat, passes: seq<RollAnswers>)
    requires RollLegs(held, next, q) && OneMonth(b.fills, held.contract, next.contract, q)
    ensures var (b', outcome) := RollRun(b, held, next, passes);
            && OneMonthThroughout(b.fills, b'.fills, held.contract, next.contract, q)
            && (outcome == Rolled ==> Net(b'.fills, held.contract) == 0 && Net(b'.fills, next.contract) == q)
            && (outcome == RollIncomplete ==> Net(b'.fills, held.contract) == 0)
    decreases |passes|
  {
    if passes == [] {
      assert forall k :: |b.fills| <= k <= |b.fills| ==> b.fills[..k] == b.fills;
    } else {
      RollPassSafe(b, held, next, q, passes[0]);
      var (b', outcome) := RollPass(b, held, next, passes[0]);
      if outcome == PartialRoll {
        RollRunSafe(b', held, next, q, passes[1..]);
        var (b'', _) := RollRun(b', held, next, passes[1..]);
        ThroughoutTrans(b.fills, b'.fills, b''.fills, held.contract, next.contract, q);
      }
    }
  }

  lemma OneAnswer(closing: bool, side: OrderSide, quantity: nat, reach: nat, avg: real)
    requires 0 < reach <= quantity
    ensures Pieces(closing, side, quantity, [Depth(reach, avg)]) == [Piece(reach, avg)]
    ensures Total([Piece(reach, avg)]) == reach
  {
    var last := if closing && side == Sell then 3 else 2;
    var answers := [Depth(reach, avg)];
    assert answers[1..] == [] && [Piece(reach, avg)][1..] == [];
    assert Attempts(2, last, quantity - reach, []) == [];
    assert Attempts(1, last, quantity, answers) == [Piece(reach, avg)] + [];
  }

  /** The roll that reports its position flat while holding part of the next month: whenever the sale
      fills, the buy stops at `part` and no quote is left for the sale back. */
  lemma RollIncompleteHolds(b: Book, held: Leg, next: Leg, q: nat, part: nat, p: real)
    requires RollLegs(held, next, q) && Net(b.fills, held.contract) == q && Net(b.fills, next.contract) == 0
    requires 0 < part < q
    ensures var (b', outcome) := RollPass(b, held, next, RollAnswers([Depth(q, p)], [Depth(part, p)], []));
            outcome == RollIncomplete && !b'.open && Net(b'.fills, next.contract) == part
  {
    var a := RollAnswers([Depth(q, p)], [Depth(part, p)], []);
    var o, n := held.contract, next.contract;
    OneAnswer(true, Sell, q, q, p);
    NetAfter(b.fills, held, Sell, [Piece(q, p)], o);
    NetAfter(b.fills, held, Sell, [Piece(q, p)], n);
    var sold := AfterSale(b, held, a);
    OneAnswer(false, Buy, q, part, p);
    NetAfter(sold, next, Buy, [Piece(part, p)], n);
    var bought := AfterBuy(b, held, next, a);
    NetAfter(bought, next, Sell, BackPieces(bought, next, a), n);
  }

  /** What a finished pass leaves. */
  lemma RolledIs(b: Book, held: Leg, next: Leg, q: nat, a: RollAnswers)
    requires RollLegs(held, next, q) && OneMonth(b.fills, held.contract, next.contract, q)
    requires RollPass(b, held, next, a).1 == Rolled
    ensures var b' := RollPass(b, held, next, a).0;
            && b'.fills == AfterBuy(b, held, next, a) && b'.carry == RolledCarry(b, held, next, a)
            && Net(b'.fills, held.contract) == 0 && Net(b'.fills, next.contract) == q
  {
    RollPassSafe(b, held, next, q, a);
  }

  // ----- the passes as the program runs them -----

  lemma {:induction false} TotalConcat(a: seq<Piece>, b: seq<Piece>)
    ensures Total(a + b) == Total(a) + Total(b)
  {
    if a == [] {
      assert a + b == b;
    } else {
      TotalConcat(a[1..], b);
      assert (a + b)[1..] == a[1..] + b;
    }
  }

  lemma {:induction false} ValueConcat(a: seq<Piece>, b: seq<Piece>)
    ensures Value(a + b) == Value(a) + Value(b)
  {
    if a == [] {
      assert a + b == b;
    } else {
      ValueConcat(a[1..], b);
      assert (a + b)[1..] == a[1..] + b;
    }
  }

  lemma {:induction false} RowsSnoc(leg: Leg, side: OrderSide, a: seq<Piece>, p: Piece)
    ensures Rows(leg, side, a + [p]) == Rows(leg, side, a) + [RowOf(leg, side, p)]
  {
    if a == [] {
      assert [] + [p] == [p] && [p][1..] == [];
    } else {
      RowsSnoc(leg, side, a[1..], p);
      assert (a + [p])[1..] == a[1..] + [p];
      assert [RowOf(leg, side, a[0])] + (Rows(leg, side, a[1..]) + [RowOf(leg, side, p)])
          == [RowOf(leg, side, a[0])] + Rows(leg, side, a[1..]) + [RowOf(leg, side, p)];
    }
  }

  /** One more piece. */
  lemma {:induction false} Extend(leg: Leg, side: OrderSide, done: seq<Piece>, p: Piece)
    ensures Total(done + [p]) == Total(done) + p.quantity
    ensures Value(done + [p]) == Value(done) + Worth(p)
    ensures Rows(leg, side, done + [p]) == Rows(leg, side, done) + [RowOf(leg, side, p)]
  {
    TotalConcat(done, [p]);
    ValueConcat(done, [p]);
    RowsSnoc(leg, side, done, p);
    assert [p][1..] == [];
  }

  /** `_send_future` under way: `k` answers are used, `done` is written, and attempts `k + 1..last` for
      what remains give the rest. */
  ghost predicate Sending(was: seq<Row>, leg: Leg, side: OrderSide, quantity: nat, last: nat, answers: seq<Answer>,
                          k: nat, done: seq<Piece>, fills: seq<Row>, remaining: int, value: real) {
    match leg
    case Leg(_, _, _) =>
      && fills == was + Rows(leg, side, done) && value == Value(done) && 0 <= remaining == quantity - Total(done)
      && k <= |answers|
      && Attempts(1, last, quantity, answers) == done + Attempts(k + 1, last, remaining, answers[k..])
  }

  lemma SendingNone(was: seq<Row>, leg: Leg, side: OrderSide, quantity: nat, last: nat, answers: seq<Answer>,
                    k: nat, done: seq<Piece>, fills: seq<Row>, remaining: nat, value: real)
    requires Sending(was, leg, side, quantity, last, answers, k, done, fills, remaining, value)
    requires k < last && k < |answers| && answers[k].Depth? && (answers[k].reach == 0 || remaining == 0)
    ensures Sending(was, leg, side, quantity, last, answers, k + 1, done, fills, remaining, value)
  {
    assert answers[k..][0] == answers[k] && answers[k..][1..] == answers[k + 1..];
    var rest := Attempts(k + 2, last, remaining, answers[k + 1..]);
    assert [] + rest == rest;
  }

  lemma SendingPiece(was: seq<Row>, leg: Leg, side: OrderSide, quantity: nat, last: nat, answers: seq<Answer>,
                     k: nat, done: seq<Piece>, fills: seq<Row>, remaining: nat, value: real, p: Piece)
    requires Sending(was, leg, side, quantity, last, answers, k, done, fills, remaining, value)
    requires k < last && k < |answers| && answers[k].Depth? && 0 < p.quantity && p.avg == answers[k].avg
    requires p.quantity == if answers[k].reach < remaining then answers[k].reach else remaining
    ensures Sending(was, leg, side, quantity, last, answers, k + 1, done + [p],
                    fills + [RowOf(leg, side, p)],
                    remaining - p.quantity, value + Worth(p))
  {
    Extend(leg, side, done, p);
    assert answers[k..][0] == answers[k] && answers[k..][1..] == answers[k + 1..];
    var rest := Attempts(k + 2, last, remaining - p.quantity, answers[k + 1..]);
    assert done + ([p] + rest) == done + [p] + rest;
  }

  lemma {:induction false} SendingEnds(was: seq<Row>, leg: Leg, side: OrderSide, quantity: nat, last: nat,
                                       answers: seq<Answer>,
                                       k: nat, done: seq<Piece>, fills: seq<Row>, remaining: nat, value: real)
    requires Sending(was, leg, side, quantity, last, answers, k, done, fills, remaining, value)
    requires k >= last || remaining == 0 || k >= |answers| || !answers[k].Depth?
    ensures var pieces := Attempts(1, last, quantity, answers);
            fills == was + Rows(leg, side, pieces) && quantity - remaining == Total(pieces)
            && AvgOf(Total(pieces), value) == SentAvg(pieces)
  {
    assert Attempts(k + 1, last, remaining, answers[k..]) == [];
    assert Attempts(1, last, quantity, answers) == done;
  }

  function Rest(answers: seq<seq<Answer>>, i: nat): seq<seq<Answer>> {
    if i < |answers| then answers[i..] else []
  }

  /** One leg of an exit sold: the rest of the legs come to the same. */
  lemma {:induction false} NextLeg(before: seq<Row>, fills: seq<Row>, legs: seq<Leg>, net: map<string, int>,
                                   answers: seq<seq<Answer>>, i: nat)
    requires i < |legs|
    requires var units := if legs[i].contract in net then net[legs[i].contract] else 0;
             var mine := if i < |answers| then answers[i] else [];
             fills == if units > 0 then before + Rows(legs[i], Sell, Pieces(true, Sell, units, mine)) else before
    ensures SellLegs(before, legs[i..], net, Rest(answers, i))
         == SellLegs(fills, legs[i + 1..], net, Rest(answers, i + 1))
  {
    assert legs[i..][0] == legs[i] && legs[i..][1..] == legs[i + 1..];
    assert i < |answers| ==> Rest(answers, i)[0] == answers[i] && Rest(answers, i)[1..] == Rest(answers, i + 1);
    assert before + [] == before;
  }

  predicate AllZero(fills: seq<Row>) {
    forall c :: c in Contracts(fills) ==> Net(fills, c) == 0
  }

  lemma AllZeroIsFlat(fills: seq<Row>)
    ensures AllZero(fills) <==> IsFlat(fills)
  {
    if AllZero(fills) {
      forall c ensures Net(fills, c) == 0 {
        if c !in Contracts(fills) {
          NoRowsNoNet(fills, c);
        }
      }
    }
  }

  /** One F2 position: its fill rows, its plan's status and its carried profit. */
  class FuturePosition {
    var fills: seq<Row>
    var status: Status
    var open: bool
    var carry: Carry

    constructor (entry: seq<Row>, carry0: Carry)
      ensures Now() == Book(entry, Open, true, carry0)
    {
      fills, status, open, carry := entry, Open, true, carry0;
    }

    ghost function Now(): Book
      reads this
    {
      Book(fills, status, open, carry)
    }

    /** `net_by_symbol(...).get(symbol, 0)`. */
    method NetOf(contract: string) returns (n: int)
      ensures n == Net(fills, contract)
    {
      n := 0;
      for i := 0 to |fills|
        invariant n == Net(fills[..i], contract)
      {
        assert fills[..i + 1][..i] == fills[..i];
        if fills[i].contract == contract {
          n := n + Signed(fills[i]);
        }
      }
      assert fills[..|fills|] == fills;
    }

    /** What one simulated attempt fills. */
    method Attempt(leg: Leg, side: OrderSide, answer: Answer, remaining: nat, value: real, ghost was: seq<Row>,
                   ghost quantity: nat, ghost last: nat, ghost answers: seq<Answer>, ghost k: nat,
                   ghost done: seq<Piece>)
      returns (left: nat, worth: real, ghost more: seq<Piece>)
      requires Sending(was, leg, side, quantity, last, answers, k, done, fills, remaining, value)
      requires k < last && k < |answers| && answers[k] == answer && answer.Depth?
      modifies `fills
      ensures left <= remaining && Sending(was, leg, side, quantity, last, answers, k + 1, more, fills, left, worth)
    {
      left, worth, more := remaining, value, done;
      var f := if answer.reach < remaining then answer.reach else remaining;
      if f > 0 {
        var piece := Piece(f, answer.avg);
        SendingPiece(was, leg, side, quantity, last, answers, k, done, fills, remaining, value, piece);
        fills := fills + [RowOf(leg, side, piece)];
        worth := value + Worth(piece);
        left := remaining - f;
        more := done + [piece];
      } else {
        SendingNone(was, leg, side, quantity, last, answers, k, done, fills, remaining, value);
      }
    }

    /** The loop of `_send_future`: at most three attempts. */
    method SendAttempts(leg: Leg, side: OrderSide, quantity: nat, last: nat, answers: seq<Answer>)
      returns (remaining: nat, value: real, ghost k: nat, ghost done: seq<Piece>)
      requires last <= 3
      modifies `fills
      ensures Sending(old(fills), leg, side, quantity, last, answers, k, done, fills, remaining, value)
      ensures k >= last || remaining == 0 || k >= |answers| || !answers[k].Depth?
    {
      var n: nat := 1;
      remaining, value, k, done := quantity, 0.0, 0, [];
      while n <= 3
        invariant 1 <= n <= 4 && k == n - 1
        invariant Sending(old(fills), leg, side, quantity, last, answers, k, done, fills, remaining, value)
      {
        if n > |answers| || !answers[n - 1].Depth? || n > last {
          break;
        }
        remaining, value, done := Attempt(leg, side, answers[n - 1], remaining, value,
                                          old(fills), quantity, last, answers, k, done);
        n, k := n + 1, k + 1;
        if remaining == 0 {
          break;
        }
      }
    }

    /** `_send_future`. The fills it appends are the pieces the broker's answers allow, at their rounded
        averages; it returns their total and the rounding of their exact average. */
    method SendFuture(leg: Leg, side: OrderSide, quantity: nat, closing: bool, answers: seq<Answer>)
      returns (filled: nat, avg: Option<int>)
      modifies `fills
      ensures var pieces := Pieces(closing, side, quantity, answers);
              && fills == old(fills) + Rows(leg, side, pieces)
              && filled == Total(pieces) && avg == SentAvg(pieces)
    {
      var last := if closing && side == Sell then 3 else 2;
      ghost var k, done;
      var remaining, value;
      remaining, value, k, done := SendAttempts(leg, side, quantity, last, answers);
      SendingEnds(old(fills), leg, side, quantity, last, answers, k, done, fills, remaining, value);
      filled := quantity - remaining;
      avg := AvgOf(filled, value);
    }

    /** `execute_exit` for a future: the units of every leg are read once, before the first order. */
    method ExecuteExit(legs: seq<Leg>, answers: seq<seq<Answer>>)
      modifies this
      ensures Now() == ExitPass(old(Now()), legs, answers)
    {
      status := Filling;
      var net := NetMap(fills);
      ghost var was := fills;
      for i := 0 to |legs|
        invariant SellLegs(fills, legs[i..], net, Rest(answers, i)) == SellLegs(was, legs, net, answers)
        invariant status == Filling && open == old(open) && carry == old(carry)
      {
        ghost var before := fills;
        var units := if legs[i].contract in net then net[legs[i].contract] else 0;
        if units > 0 {
          var _, _ := SendFuture(legs[i], Sell, units, true, if i < |answers| then answers[i] else []);
        }
        NextLeg(before, fills, legs, net, answers, i);
      }
      AllZeroIsFlat(fills);
      if AllZero(fills) {
        open := false;
        status := Closed;
      }
    }

    method SellHeld(held: Leg, answers: seq<Answer>)
      modifies `fills
      ensures fills == old(fills) +
                Rows(held, Sell, if Net(old(fills), held.contract) > 0
                                 then Pieces(true, Sell, Net(old(fills), held.contract), answers) else [])
    {
      var units := NetOf(held.contract);
      if units > 0 {
        var _, _ := SendFuture(held, Sell, units, true, answers);
      }
    }

    method BuyNext(next: Leg, a: RollAnswers) returns (avg: Option<int>)
      modifies `fills
      ensures var pieces := BuyPieces(old(fills), next, a);
              fills == old(fills) + Rows(next, Buy, pieces) && avg == SentAvg(pieces)
    {
      var bought := NetOf(next.contract);
      avg := None;
      if bought < next.quantity {
        var _, sent := SendFuture(next, Buy, next.quantity - bought, false, a.buy);
        avg := sent;
      }
    }

    /** The finished roll's carried profit and new entry average. */
    method UpdateCarry(held: Leg, next: Leg, avg: Option<int>)
      modifies `carry
      ensures carry == Carried(old(carry), fills, held, next, avg)
    {
      var sold := FillAvg(fills, held.id, Sell);
      var realised := carry.realised + if sold.Some? then (sold.value - carry.entryAvg) * held.quantity else 0;
      var newAvg := Or(avg, FillAvg(fills, next.id, Buy));
      carry := Carry(carry.rolls + 1, realised, if newAvg.Some? then newAvg.value else 0);
    }

    /** `execute_roll`. */
    method ExecuteRoll(held: Leg, next: Leg, a: RollAnswers) returns (outcome: RollOutcome)
      modifies this
      ensures (Now(), outcome) == RollPass(old(Now()), held, next, a)
    {
      ghost var was := Now();
      status := Filling;
      var units := NetOf(held.contract);
      SellHeld(held, a.sell);
      var left := NetOf(held.contract);
      if units > 0 && left > 0 {
        return PartialRoll;
      }
      assert fills == AfterSale(was, held, a);
      var avg := BuyNext(next, a);
      var bought := NetOf(next.contract);
      if bought < next.quantity {
        SellHeld(next, a.back);
        status, open := AbandonedPartial, false;
        return RollIncomplete;
      }
      UpdateCarry(held, next, avg);
      status := Open;
      return Rolled;
    }
  }
}
