/** The profit a rolled future carries (`execute_roll`, `_fill_avg` and the monitor's mark) against the
    cash its fills moved. Amounts are paise. */
module RollPnl {
  import opened Options
  import opened Money
  import opened FutureOrders
  import opened Ladder

  /** Cash in, less cash out, over every fill. */
  function Cash(fills: seq<Row>): int {
    if fills == [] then 0
    else Cash(fills[..|fills| - 1]) - Signed(fills[|fills| - 1]) * fills[|fills| - 1].price
  }

  function StoredWorth(p: Piece): int {
    Whole(Quantize(p.avg), p.quantity)
  }

  /** What the pieces are stored as being worth, each at its rounded price. */
  function Stored(pieces: seq<Piece>): int {
    if pieces == [] then 0 else StoredWorth(pieces[0]) + Stored(pieces[1..])
  }

  /** `realised + (mark - entry) * q` less `cash + mark * q`: the mark cancels. */
  function Drift(b: Book, q: nat): int {
    b.carry.realised - b.carry.entryAvg * q - Cash(b.fills)
  }

  // ----- sums over appended rows -----

  lemma {:induction false} CashSnoc(fills: seq<Row>, r: Row)
    ensures Cash(fills + [r]) == Cash(fills) - Signed(r) * r.price
  {
    assert (fills + [r])[..|fills|] == fills;
  }

  lemma {:induction false} CashRows(fills: seq<Row>, leg: Leg, side: OrderSide, pieces: seq<Piece>)
    ensures Cash(fills + Rows(leg, side, pieces)) == Cash(fills) - Units(side, Stored(pieces))
    decreases |pieces|
  {
    if pieces == [] {
      assert fills + Rows(leg, side, pieces) == fills;
    } else {
      var r := RowOf(leg, side, pieces[0]);
      CashRows(fills + [r], leg, side, pieces[1..]);
      assert fills + [r] + Rows(leg, side, pieces[1..]) == fills + Rows(leg, side, pieces);
      CashSnoc(fills, r);
      SignedTimes(side, pieces[0].quantity, r.price);
    }
  }

  lemma SignedTimes(side: OrderSide, n: int, price: int)
    ensures Units(side, n) * price == Units(side, n * price)
  {
  }

  lemma {:induction false} QtyRows(fills: seq<Row>, leg: Leg, side: OrderSide, pieces: seq<Piece>, id: nat,
                                   s: OrderSide)
    ensures Qty(fills + Rows(leg, side, pieces), id, s)
         == Qty(fills, id, s) + if id == leg.id && s == side then Total(pieces) else 0
    ensures Val(fills + Rows(leg, side, pieces), id, s)
         == Val(fills, id, s) + if id == leg.id && s == side then Stored(pieces) else 0
    decreases |pieces|
  {
    if pieces == [] {
      assert fills + Rows(leg, side, pieces) == fills;
    } else {
      var r := RowOf(leg, side, pieces[0]);
      QtyRows(fills + [r], leg, side, pieces[1..], id, s);
      assert fills + [r] + Rows(leg, side, pieces[1..]) == fills + Rows(leg, side, pieces);
      assert (fills + [r])[..|fills|] == fills;
    }
  }

  lemma {:induction false} NothingIsWorthNothing(fills: seq<Row>, id: nat, side: OrderSide)
    requires Qty(fills, id, side) == 0
    ensures Val(fills, id, side) == 0
  {
    if fills != [] {
      NothingIsWorthNothing(fills[..|fills| - 1], id, side);
    }
  }

  /** No fill is under this row of the leg table. */
  predicate NoFills(fills: seq<Row>, id: nat) {
    forall k :: 0 <= k < |fills| ==> fills[k].leg != id
  }

  lemma {:induction false} NothingFilled(fills: seq<Row>, id: nat, side: OrderSide)
    requires NoFills(fills, id)
    ensures Qty(fills, id, side) == 0 && Val(fills, id, side) == 0
  {
    if fills != [] {
      NothingFilled(fills[..|fills| - 1], id, side);
    }
  }

  // ----- rounding -----

  /** Storing each piece at its rounded price loses at most half a paisa a unit. */
  lemma {:induction false} StoredError(pieces: seq<Piece>)
    ensures Abs(Stored(pieces) as real - Value(pieces)) <= 0.5 * Total(pieces) as real
  {
    if pieces != [] {
      StoredError(pieces[1..]);
      PieceError(pieces[0]);
      Triangle(StoredWorth(pieces[0]) as real - Worth(pieces[0]), Stored(pieces[1..]) as real - Value(pieces[1..]));
    }
  }

  lemma PieceError(p: Piece)
    ensures Abs(StoredWorth(p) as real - Worth(p)) <= 0.5 * p.quantity as real
  {
    RoundedUnits(p.avg, p.quantity);
  }

  /** So does multiplying a rounded average back by its units. */
  lemma AverageError(value: real, q: nat)
    requires q > 0
    ensures Abs((Quantize(value / q as real) * q) as real - value) <= 0.5 * q as real
  {
    RoundedAverage(value, q);
  }

  // ----- one roll -----

  /** Since the roll began at `start`: what was sold under its first leg is what the old month lost, what
      was bought under its second is what the next month holds, and the cash moved is theirs alone. */
  ghost predicate MidRoll(start: Book, b: Book, held: Leg, next: Leg, q: nat) {
    && b.carry == start.carry
    && Qty(b.fills, held.id, Sell) + Net(b.fills, held.contract) == q
    && Qty(b.fills, next.id, Buy) == Net(b.fills, next.contract)
    && Cash(b.fills) == Cash(start.fills) + Val(b.fills, held.id, Sell) - Val(b.fills, next.id, Buy)
  }

  /** A roll begins with its whole quantity in the old month and no fill under its own legs. */
  ghost predicate Fresh(b: Book, held: Leg, next: Leg, q: nat) {
    && RollLegs(held, next, q)
    && Net(b.fills, held.contract) == q && Net(b.fills, next.contract) == 0
    && NoFills(b.fills, held.id) && NoFills(b.fills, next.id)
  }

  lemma FreshIsMidRoll(b: Book, held: Leg, next: Leg, q: nat)
    requires Fresh(b, held, next, q)
    ensures MidRoll(b, b, held, next, q)
  {
    NothingFilled(b.fills, held.id, Sell);
    NothingFilled(b.fills, next.id, Buy);
  }

  lemma SaleKeepsMidRoll(start: Book, b: Book, held: Leg, next: Leg, q: nat, a: RollAnswers)
    requires RollLegs(held, next, q) && MidRoll(start, b, held, next, q)
    ensures MidRoll(start, b.(fills := AfterSale(b, held, a)), held, next, q)
    ensures Net(AfterSale(b, held, a), next.contract) == Net(b.fills, next.contract)
  {
    var sell := SellPieces(b, held, a);
    NetAfter(b.fills, held, Sell, sell, held.contract);
    NetAfter(b.fills, held, Sell, sell, next.contract);
    QtyRows(b.fills, held, Sell, sell, held.id, Sell);
    QtyRows(b.fills, held, Sell, sell, next.id, Buy);
    CashRows(b.fills, held, Sell, sell);
  }

  lemma {:induction false} BuyKeepsMidRoll(start: Book, b: Book, held: Leg, next: Leg, q: nat, pieces: seq<Piece>)
    requires RollLegs(held, next, q) && MidRoll(start, b, held, next, q)
    ensures var fills := b.fills + Rows(next, Buy, pieces);
            MidRoll(start, b.(fills := fills), held, next, q)
            && Net(fills, next.contract) == Net(b.fills, next.contract) + Total(pieces)
            && Val(fills, next.id, Buy) == Val(b.fills, next.id, Buy) + Stored(pieces)
  {
    NetAfter(b.fills, next, Buy, pieces, held.contract);
    NetAfter(b.fills, next, Buy, pieces, next.contract);
    QtyRows(b.fills, next, Buy, pieces, held.id, Sell);
    QtyRows(b.fills, next, Buy, pieces, next.id, Buy);
    CashRows(b.fills, next, Buy, pieces);
  }

  /** The drift a finished pass adds: what rounding the sale's average loses, less what its entry average
      loses. */
  lemma RolledDrift(start: Book, b: Book, held: Leg, next: Leg, q: nat, a: RollAnswers)
    requires RollLegs(held, next, q) && MidRoll(start, b, held, next, q)
    requires RollPass(b, held, next, a).1 == Rolled && OneMonth(b.fills, held.contract, next.contract, q)
    ensures var b' := RollPass(b, held, next, a).0;
            && b'.carry.rolls == start.carry.rolls + 1
            && Qty(b'.fills, held.id, Sell) == q && Qty(b'.fills, next.id, Buy) == q
            && Drift(b', q) - Drift(start, q) ==
               (Quantize(Val(b'.fills, held.id, Sell) as real / q as real) * q - Val(b'.fills, held.id, Sell))
               - (b'.carry.entryAvg * q - Val(b'.fills, next.id, Buy))
  {
    RolledIs(b, held, next, q, a);
    SaleKeepsMidRoll(start, b, held, next, q, a);
    var sold := AfterSale(b, held, a);
    BuyKeepsMidRoll(start, b.(fills := sold), held, next, q, BuyPieces(sold, next, a));
    var b' := RollPass(b, held, next, a).0;
    var vs, vb := Val(b'.fills, held.id, Sell), Val(b'.fills, next.id, Buy);
    DriftArithmetic(start.carry.realised, start.carry.entryAvg, q, Cash(start.fills),
                    Quantize(vs as real / q as real), b'.carry.entryAvg, vs, vb);
  }

  lemma DriftArithmetic(realised: int, entry: int, q: int, cash: int, sold: int, avg: int, vs: int, vb: int)
    ensures (realised + (sold - entry) * q - avg * q - (cash + vs - vb)) - (realised - entry * q - cash)
         == (sold * q - vs) - (avg * q - vb)
  {
    assert (sold - entry) * q == sold * q - entry * q;
  }

  /** Where the new entry average comes from. */
  lemma EntryIs(b: Book, held: Leg, next: Leg, q: nat, a: RollAnswers)
    requires RollLegs(held, next, q) && OneMonth(b.fills, held.contract, next.contract, q)
    requires Qty(b.fills, next.id, Buy) == Net(b.fills, next.contract)
    requires RollPass(b, held, next, a).1 == Rolled
    ensures var b', buy := RollPass(b, held, next, a).0, BuyPieces(AfterSale(b, held, a), next, a);
            && Total(buy) == q - Net(b.fills, next.contract)
            && Val(b'.fills, next.id, Buy) == Val(b.fills, next.id, Buy) + Stored(buy)
            && var avg := Or(SentAvg(buy), AvgOf(q, Val(b'.fills, next.id, Buy) as real));
               avg.Some? && b'.carry.entryAvg == avg.value
  {
    var sold := AfterSale(b, held, a);
    var sell := SellPieces(b, held, a);
    NetAfter(b.fills, held, Sell, sell, next.contract);
    QtyRows(b.fills, held, Sell, sell, next.id, Buy);
    var buy := BuyPieces(sold, next, a);
    NetAfter(sold, next, Buy, buy, next.contract);
    QtyRows(sold, next, Buy, buy, next.id, Buy);
    RolledIs(b, held, next, q, a);
  }

  /** The new entry average loses at most `q` paise when one pass buys the whole next month, or when the
      pass finds it already bought. */
  lemma EntryError(b: Book, held: Leg, next: Leg, q: nat, a: RollAnswers)
    requires RollLegs(held, next, q) && OneMonth(b.fills, held.contract, next.contract, q)
    requires Qty(b.fills, next.id, Buy) == Net(b.fills, next.contract)
    requires Net(b.fills, next.contract) == 0 || Net(b.fills, next.contract) == q
    requires RollPass(b, held, next, a).1 == Rolled
    ensures var b' := RollPass(b, held, next, a).0;
            Abs((b'.carry.entryAvg * q) as real - Val(b'.fills, next.id, Buy) as real) <= q as real
  {
    EntryIs(b, held, next, q, a);
    var v := Val(RollPass(b, held, next, a).0.fills, next.id, Buy);
    AverageError(v as real, q);
    if Net(b.fills, next.contract) == 0 {
      NothingIsWorthNothing(b.fills, next.id, Buy);
      var buy := BuyPieces(AfterSale(b, held, a), next, a);
      StoredError(buy);
      AverageError(Value(buy), q);
    }
  }

  // ----- a whole roll, and any number of them -----

  /** The finishing pass: at most `3q / 2` paise. */
  lemma PassDrift(start: Book, b: Book, held: Leg, next: Leg, q: nat, a: RollAnswers)
    requires RollLegs(held, next, q) && MidRoll(start, b, held, next, q)
    requires OneMonth(b.fills, held.contract, next.contract, q)
    requires Net(b.fills, next.contract) == 0 || Net(b.fills, next.contract) == q
    requires RollPass(b, held, next, a).1 == Rolled
    ensures Within(Drift(RollPass(b, held, next, a).0, q) - Drift(start, q), 3 * q)
  {
    var b' := RollPass(b, held, next, a).0;
    RolledDrift(start, b, held, next, q, a);
    EntryError(b, held, next, q, a);
    var vs := Val(b'.fills, held.id, Sell);
    AverageError(vs as real, q);
    AddErrors(Quantize(vs as real / q as real) * q, vs, b'.carry.entryAvg * q, Val(b'.fills, next.id, Buy), q);
  }

  /** Twice `x` is within `bound` of nothing. */
  predicate Within(x: int, bound: int) {
    -bound <= 2 * x <= bound
  }

  lemma AddErrors(s: int, vs: int, e: int, vb: int, q: nat)
    requires Abs(s as real - vs as real) <= 0.5 * q as real && Abs(e as real - vb as real) <= q as real
    ensures Within((s - vs) - (e - vb), 3 * q)
  {
  }

  /** Passes that sell and are retried, then one that finishes. */
  lemma {:induction false} RollDrift(start: Book, b: Book, held: Leg, next: Leg, q: nat, passes: seq<RollAnswers>)
    requires RollLegs(held, next, q) && MidRoll(start, b, held, next, q)
    requires OneMonth(b.fills, held.contract, next.contract, q)
    requires Net(b.fills, next.contract) == 0 || Net(b.fills, next.contract) == q
    requires RollRun(b, held, next, passes).1 == Rolled
    ensures RollRun(b, held, next, passes).0.carry.rolls == start.carry.rolls + 1
    ensures Within(Drift(RollRun(b, held, next, passes).0, q) - Drift(start, q), 3 * q)
    decreases |passes|
  {
    var a := passes[0];
    RollPassSafe(b, held, next, q, a);
    if RollPass(b, held, next, a).1 == PartialRoll {
      SaleKeepsMidRoll(start, b, held, next, q, a);
      RollDrift(start, RollPass(b, held, next, a).0, held, next, q, passes[1..]);
    } else {
      RolledDrift(start, b, held, next, q, a);
      PassDrift(start, b, held, next, q, a);
    }
  }

  datatype Roll = Roll(held: Leg, next: Leg, passes: seq<RollAnswers>)

  /** Rolls one after another, each from the month the last one bought. */
  ghost predicate Rolls(b: Book, contract: string, rolls: seq<Roll>, q: nat)
    decreases |rolls|
  {
    rolls == [] ||
    var r := rolls[0];
    && r.held.contract == contract && Fresh(b, r.held, r.next, q)
    && RollRun(b, r.held, r.next, r.passes).1 == Rolled
    && Rolls(RollRun(b, r.held, r.next, r.passes).0, r.next.contract, rolls[1..], q)
  }

  ghost function After(b: Book, rolls: seq<Roll>): Book
    decreases |rolls|
  {
    if rolls == [] then b else After(RollRun(b, rolls[0].held, rolls[0].next, rolls[0].passes).0, rolls[1..])
  }

  lemma OneRollDrift(b: Book, r: Roll, q: nat)
    requires Fresh(b, r.held, r.next, q) && RollRun(b, r.held, r.next, r.passes).1 == Rolled
    ensures var b' := RollRun(b, r.held, r.next, r.passes).0;
            b'.carry.rolls == b.carry.rolls + 1 && Within(Drift(b', q) - Drift(b, q), 3 * q)
  {
    FreshIsMidRoll(b, r.held, r.next, q);
    RollDrift(b, b, r.held, r.next, q, r.passes);
  }

  /** The drift after `k` rolls, from `d`. */
  ghost predicate DriftWithin(b: Book, d: int, k: nat, q: nat) {
    match b
    case Book(_, _, _, _) => Within(Drift(b, q) - d, 3 * k * q)
  }

  lemma NoRollsYet(b: Book, q: nat)
    ensures DriftWithin(b, Drift(b, q), 0, q)
  {
  }

  lemma {:induction false} RollsDrift(b: Book, contract: string, rolls: seq<Roll>, q: nat)
    requires Rolls(b, contract, rolls, q)
    ensures DriftWithin(After(b, rolls), Drift(b, q), |rolls|, q)
    decreases |rolls|
  {
    if rolls == [] {
      NoRollsYet(b, q);
    } else {
      var r := rolls[0];
      var b' := RollRun(b, r.held, r.next, r.passes).0;
      OneRollDrift(b, r, q);
      RollsDrift(b', r.next.contract, rolls[1..], q);
      AddRolls(Drift(b, q), b', After(b', rolls[1..]), |rolls| - 1, q);
    }
  }

  lemma {:induction false} RollsCount(b: Book, contract: string, rolls: seq<Roll>, q: nat)
    requires Rolls(b, contract, rolls, q)
    ensures After(b, rolls).carry.rolls == b.carry.rolls + |rolls|
    decreases |rolls|
  {
    if rolls != [] {
      var r := rolls[0];
      OneRollDrift(b, r, q);
      RollsCount(RollRun(b, r.held, r.next, r.passes).0, r.next.contract, rolls[1..], q);
    }
  }

  lemma AddRolls(d: int, b: Book, end: Book, k: nat, q: nat)
    requires Within(Drift(b, q) - d, 3 * q) && DriftWithin(end, Drift(b, q), k, q)
    ensures DriftWithin(end, d, k + 1, q)
  {
    AddRoll(k, q, Drift(b, q) - d, Drift(end, q) - Drift(b, q));
  }

  lemma AddRoll(k: nat, q: nat, x: int, y: int)
    requires Within(x, 3 * q) && Within(y, 3 * k * q)
    ensures Within(x + y, 3 * (k + 1) * q)
  {
    assert 3 * (k + 1) * q == 3 * k * q + 3 * q;
  }

  /** The entry: one send of the whole quantity, recorded at the rounding of its exact average. */
  ghost predicate Entered(b: Book, leg: Leg, q: nat, pieces: seq<Piece>) {
    && q > 0 && Total(pieces) == q && b.fills == Rows(leg, Buy, pieces)
    && b.carry == Carry(0, 0, Quantize(Value(pieces) / q as real))
  }

  lemma EntryDrift(b: Book, leg: Leg, q: nat, pieces: seq<Piece>)
    requires Entered(b, leg, q, pieces)
    ensures Within(Drift(b, q), 2 * q)
  {
    CashRows([], leg, Buy, pieces);
    assert [] + Rows(leg, Buy, pieces) == Rows(leg, Buy, pieces);
    StoredError(pieces);
    AverageError(Value(pieces), q);
    var paid := Quantize(Value(pieces) / q as real) * q;
    assert Drift(b, q) == Stored(pieces) - paid;
    BothNear(paid, Stored(pieces), Value(pieces), q);
  }

  /** Two whole numbers, each within half a paisa a unit of one value. */
  lemma BothNear(x: int, y: int, value: real, q: nat)
    requires Abs(x as real - value) <= 0.5 * q as real && Abs(y as real - value) <= 0.5 * q as real
    ensures Within(y - x, 2 * q)
  {
  }

  /** The monitor's mark of a rolled future. */
  function MarkedPnl(c: Carry, mark: real, q: nat): int {
    c.realised + Quantize((mark - c.entryAvg as real) * q as real)
  }

  /** After any number `k` of rolls of `q` units, however often each was retried, the profit the monitor
      shows is the cash its fills moved plus the units at the mark, to within `(3k + 2)q / 2` paise and
      half a paisa for the mark's own rounding. */
  lemma {:induction false} PnlIsCash(b: Book, leg: Leg, q: nat, pieces: seq<Piece>, rolls: seq<Roll>, mark: real)
    requires Entered(b, leg, q, pieces) && Rolls(b, leg.contract, rolls, q)
    ensures var end := After(b, rolls);
            && end.carry.rolls == |rolls|
            && 2.0 * Abs(MarkedPnl(end.carry, mark, q) as real - (Cash(end.fills) as real + mark * q as real))
               <= ((3 * |rolls| + 2) * q) as real + 1.0
  {
    TotalDrift(b, leg, q, pieces, rolls);
    RollsDrift(b, leg.contract, rolls, q);
    RollsCount(b, leg.contract, rolls, q);
    var end := After(b, rolls);
    MarkError(end.carry, Cash(end.fills), mark, q, (3 * |rolls| + 2) * q);
  }

  lemma TotalDrift(b: Book, leg: Leg, q: nat, pieces: seq<Piece>, rolls: seq<Roll>)
    requires Entered(b, leg, q, pieces) && Rolls(b, leg.contract, rolls, q)
    ensures Within(Drift(After(b, rolls), q), (3 * |rolls| + 2) * q)
  {
    EntryDrift(b, leg, q, pieces);
    RollsDrift(b, leg.contract, rolls, q);
    RollsCount(b, leg.contract, rolls, q);
    assert (3 * |rolls| + 2) * q == 3 * |rolls| * q + 2 * q;
  }

  lemma MarkError(c: Carry, cash: int, mark: real, q: nat, bound: int)
    requires Within(c.realised - c.entryAvg * q - cash, bound)
    ensures 2.0 * Abs(MarkedPnl(c, mark, q) as real - (cash as real + mark * q as real)) <= bound as real + 1.0
  {
    QuantizeError((mark - c.entryAvg as real) * q as real);
    Spread(mark, c.entryAvg, q);
  }

  lemma Spread(mark: real, entry: int, q: nat)
    ensures (mark - entry as real) * q as real == mark * q as real - (entry * q) as real
  {
    assert (entry * q) as real == entry as real * q as real;
  }

  // ----- a roll cut short between its two writes -----

  /** A pass that starts with `h` of the next month already bought, as after a restart in the middle of
      the buy, records the average of its own fills alone: the drift moves by what those `h` units cost
      more than that average, again to within `3q / 2`. */
  lemma RestartDrift(start: Book, b: Book, held: Leg, next: Leg, q: nat, a: RollAnswers)
    requires RollLegs(held, next, q) && MidRoll(start, b, held, next, q)
    requires OneMonth(b.fills, held.contract, next.contract, q)
    requires 0 < Net(b.fills, next.contract) < q
    requires RollPass(b, held, next, a).1 == Rolled && SentAvg(BuyPieces(AfterSale(b, held, a), next, a)) != Some(0)
    ensures var b', h := RollPass(b, held, next, a).0, Net(b.fills, next.contract);
            var shift := Val(b.fills, next.id, Buy) - h * b'.carry.entryAvg;
            Within(Drift(b', q) - Drift(start, q) - shift, 3 * q)
  {
    var b', h := RollPass(b, held, next, a).0, Net(b.fills, next.contract);
    var vs, v0 := Val(b'.fills, held.id, Sell), Val(b.fills, next.id, Buy);
    RolledDrift(start, b, held, next, q, a);
    RestartEntryError(b, held, next, q, a);
    AverageError(vs as real, q);
    AddErrors(Quantize(vs as real / q as real) * q, vs, b'.carry.entryAvg * q,
      Val(b'.fills, next.id, Buy) - v0 + h * b'.carry.entryAvg, q);
  }

  lemma RestartEntryError(b: Book, held: Leg, next: Leg, q: nat, a: RollAnswers)
    requires RollLegs(held, next, q) && OneMonth(b.fills, held.contract, next.contract, q)
    requires Qty(b.fills, next.id, Buy) == Net(b.fills, next.contract)
    requires 0 < Net(b.fills, next.contract) < q
    requires RollPass(b, held, next, a).1 == Rolled && SentAvg(BuyPieces(AfterSale(b, held, a), next, a)) != Some(0)
    ensures var b', h := RollPass(b, held, next, a).0, Net(b.fills, next.contract);
            var e := b'.carry.entryAvg;
            Abs((e * q) as real - (Val(b'.fills, next.id, Buy) - Val(b.fills, next.id, Buy) + h * e) as real)
            <= q as real
  {
    EntryIs(b, held, next, q, a);
    var buy := BuyPieces(AfterSale(b, held, a), next, a);
    RestArithmetic(Value(buy), Stored(buy), q, Net(b.fills, next.contract)) by {
      StoredError(buy);
    }
  }

  lemma RestArithmetic(value: real, stored: int, q: nat, h: nat)
    requires h < q && Abs(stored as real - value) <= 0.5 * (q - h) as real
    ensures var e := Quantize(value / (q - h) as real);
            Abs((e * q) as real - (stored + h * e) as real) <= q as real
  {
    AverageError(value, q - h);
    var e := Quantize(value / (q - h) as real);
    assert e * q == e * (q - h) + h * e;
  }
}
