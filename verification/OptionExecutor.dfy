/** Sending a structure's legs: the entry and exit procedures
    (decile-blueprint/packages/core/src/baskfy_core/options/executor.py), over the
    FO desk's venue (`OptionVenue`, kite-momentum-rebalancer/app/fno_execute.py), whose every order
    is proved again by the gateway's covered-overnight guard.

    The broker is arbitrary: at each attempt it may have no quote, refuse the order, or show any
    ladder. Everything below holds for all of its answers. */
module OptionExecutor {
  import opened Options
  import opened Covered
  import opened Ladder

  datatype LegRole = LongPut | LongCall | ShortPut | ShortCall {
    predicate IsLong() { LongPut? || LongCall? }

    /** The short a long protects. */
    function Protects(): LegRole
      requires IsLong()
    {
      if LongPut? then ShortPut else ShortCall
    }
  }

  /** A quantity per role. */
  datatype Legs = Legs(longPut: int, longCall: int, shortPut: int, shortCall: int) {
    function Get(r: LegRole): int {
      match r
      case LongPut => longPut
      case LongCall => longCall
      case ShortPut => shortPut
      case ShortCall => shortCall
    }

    function Set(r: LegRole, v: int): Legs {
      match r
      case LongPut => this.(longPut := v)
      case LongCall => this.(longCall := v)
      case ShortPut => this.(shortPut := v)
      case ShortCall => this.(shortCall := v)
    }

    predicate NeverNaked() { shortCall <= longCall && shortPut <= longPut }
    predicate NonNegative() { longPut >= 0 && longCall >= 0 && shortPut >= 0 && shortCall >= 0 }
    predicate Flat() { longPut == 0 && longCall == 0 && shortPut == 0 && shortCall == 0 }

    predicate Within(that: Legs) {
      match this
      case Legs(_, _, _, _) =>
        && longPut <= that.longPut && longCall <= that.longCall
        && shortPut <= that.shortPut && shortCall <= that.shortCall
    }

    /** Signed units: longs positive, shorts negative. */
    function Signed(): Legs { Legs(longPut, longCall, -shortPut, -shortCall) }
  }

  const NONE := Legs(0, 0, 0, 0)

  // ----- the venue -----

  /** One row of the fill table. */
  datatype Fill = Fill(role: LegRole, side: OrderSide, quantity: nat, cost: int)

  /** Which attempt it is, the quote it was priced on, and the price. */
  datatype Offer = Offer(number: nat, bid: int, ask: int, attempt: Attempt)

  /** An order as the gateway saw it: what was held before and after, the book it met (none if it was refused) and
      the row it wrote. */
  datatype Order = Order(role: LegRole, closing: bool, quantity: nat, before: Legs, after: Legs,
                         offer: Offer, answer: Option<BookSide>, row: Option<Fill>)

  function SideOf(role: LegRole, closing: bool): OrderSide {
    if role.IsLong() == closing then Sell else Buy
  }

  /** What an order's row says was filled. */
  function GotOf(row: Option<Fill>): Got {
    if row.Some? then Got(row.value.quantity, row.value.cost) else Got(0, 0)
  }

  /** The order got what the book gives at its limit, wrote that down if it was anything, and holds it; a refused
      one got nothing. */
  ghost predicate Executed(o: Order) {
    match o
    case Order(role, closing, quantity, before, after, offer, answer, row) =>
      var got, side := GotOf(row), SideOf(role, closing);
      && (if answer.Some? then Fills(side, answer.value, offer.attempt.price, quantity, got) else got == Got(0, 0))
      && (row.Some? ==> row.value == Fill(role, side, got.filled, got.cost) && got.filled > 0)
      && after == before.Set(role, before.Get(role) + Units(side, got.filled))
  }

  /** The table has the rows of the orders sent, in their order, and no others. */
  ghost predicate Booked(log: seq<Order>, fills: seq<Fill>)
    decreases |log|
  {
    if log == [] then fills == []
    else
      var o, front := log[|log| - 1], log[..|log| - 1];
      && Executed(o)
      && if o.row.None? then Booked(front, fills)
         else fills != [] && fills[|fills| - 1] == o.row.value && Booked(front, fills[..|fills| - 1])
  }

  function Written(o: Order): seq<Fill> {
    if o.row.Some? then [o.row.value] else []
  }

  lemma {:induction false} BookedMore(log: seq<Order>, fills: seq<Fill>, o: Order)
    requires Booked(log, fills) && Executed(o)
    ensures Booked(log + [o], fills + Written(o))
  {
    assert (log + [o])[..|log|] == log;
    if o.row.Some? {
      assert (fills + [o.row.value])[..|fills|] == fills;
    } else {
      assert fills + [] == fills;
    }
  }

  /** No row's average is beyond the limit of the order that wrote it. */
  lemma {:induction false} BookedAt(log: seq<Order>, fills: seq<Fill>, k: nat)
    requires Booked(log, fills) && k < |log|
    ensures Executed(log[k])
    ensures log[k].row.Some? ==> log[k].row.value in fills
    ensures log[k].row.Some? ==>
              WithinLimit(log[k].row.value.side, log[k].row.value.cost, log[k].offer.attempt.price,
                          log[k].row.value.quantity)
    decreases |log|
  {
    var o := log[|log| - 1];
    if k < |log| - 1 {
      BookedAt(log[..|log| - 1], if o.row.Some? then fills[..|fills| - 1] else fills, k);
    } else if o.row.Some? {
      FillWithinLimit(SideOf(o.role, o.closing), o.answer.value, o.offer.attempt.price, o.quantity, GotOf(o.row));
    }
  }

  function Units(side: OrderSide, quantity: int): int {
    if side == Buy then quantity else -quantity
  }

  /** The fill table's net, leg by leg, on top of a starting holding. */
  function Net(start: Legs, fills: seq<Fill>): Legs {
    if fills == [] then start
    else
      var before, f := Net(start, fills[..|fills| - 1]), fills[|fills| - 1];
      before.Set(f.role, before.Get(f.role) + Units(f.side, f.quantity))
  }

  /** The plan's contracts: one underlying and expiry, each long strictly further out. */
  datatype Structure = Structure(underlying: string, expiry: int, strikes: Legs) {
    predicate Protected() {
      strikes.longCall > strikes.shortCall && strikes.longPut < strikes.shortPut
    }

    function RowOf(role: LegRole, units: int): Row {
      var kind := if role.LongCall? || role.ShortCall? then CE else PE;
      Row(Side(underlying, expiry, kind), strikes.Get(role), units)
    }

    /** The plan's filled legs as the order's reference carries them. */
    function Filled(held: Legs): seq<Row> {
      [RowOf(LongPut, held.longPut), RowOf(LongCall, held.longCall),
       RowOf(ShortPut, held.shortPut), RowOf(ShortCall, held.shortCall)]
    }
  }

  /** A book that is never naked, leg for leg, is covered by the rule. */
  lemma HeldIsCovered(st: Structure, q: Legs)
    requires st.Protected() && q.NonNegative() && q.NeverNaked()
    ensures IsCovered(st.Filled(q.Signed()))
  {
    var book := st.Filled(q.Signed());
    forall side, x ensures Beyond(book, side, x) >= 0 {
      BeyondFour(book, side, x);
    }
  }

  lemma {:induction false} BeyondFour(book: seq<Row>, side: Side, x: int)
    requires |book| == 4
    ensures Beyond(book, side, x) == BeyondOne(book[0], side, x) + BeyondOne(book[1], side, x)
                                   + BeyondOne(book[2], side, x) + BeyondOne(book[3], side, x)
  {
    assert book[..4] == book;
    BeyondLast(book, 4, side, x);
    BeyondLast(book, 3, side, x);
    BeyondLast(book, 2, side, x);
    BeyondLast(book, 1, side, x);
    assert book[..0] == [];
  }

  lemma {:induction false} BeyondLast(book: seq<Row>, n: nat, side: Side, x: int)
    requires 0 < n <= |book|
    ensures Beyond(book[..n], side, x) == Beyond(book[..n - 1], side, x) + BeyondOne(book[n - 1], side, x)
  {
    assert book[..n][..n - 1] == book[..n - 1];
  }

  function BeyondOne(r: Row, side: Side, x: int): int {
    if r.side == side && !Further(side.kind, x, r.strike) then r.quantity else 0
  }

  /** The guard's book: an empty broker book, the legs held and the order, which is the book the order
      would leave if it filled in full. */
  lemma {:induction false} GuardBook(st: Structure, q: Legs, role: LegRole, signed: int, side: Side, x: int)
    ensures Beyond(BookAfter([], st.Filled(q), st.RowOf(role, signed)), side, x)
            == Beyond(st.Filled(q.Set(role, q.Get(role) + signed)), side, x)
  {
    var step := st.RowOf(role, signed);
    assert [] + st.Filled(q) == st.Filled(q);
    BeyondConcat(st.Filled(q), [step], side, x);
    assert [step][..0] == [];
    assert Beyond([step], side, x) == BeyondOne(step, side, x);
    BeyondFour(st.Filled(q), side, x);
    BeyondFour(st.Filled(q.Set(role, q.Get(role) + signed)), side, x);
  }

  lemma GuardIsHeldAfter(st: Structure, q: Legs, role: LegRole, signed: int)
    ensures IsCovered(BookAfter([], st.Filled(q), st.RowOf(role, signed)))
            <==> IsCovered(st.Filled(q.Set(role, q.Get(role) + signed)))
  {
    var a, b := BookAfter([], st.Filled(q), st.RowOf(role, signed)), st.Filled(q.Set(role, q.Get(role) + signed));
    forall side, x ensures Beyond(a, side, x) == Beyond(b, side, x) {
      GuardBook(st, q, role, signed, side, x);
    }
    forall side ensures SideIsCovered(a, side) <==> SideIsCovered(b, side) {
    }
  }

  lemma SetSame(p: Legs, role: LegRole)
    ensures p.Set(role, p.Get(role)) == p && p.Set(role, p.Get(role) + 0) == p
  {
  }

  lemma NothingCosts(side: OrderSide, book: BookSide, limit: int, quantity: nat, got: Got)
    requires Fills(side, book, limit, quantity, got) && got.filled == 0
    ensures got == Got(0, 0)
  {
  }

  class OptionVenue {
    const structure: Structure
    const start: Legs
    var held: Legs
    var fills: seq<Fill>
    var orders: nat
    var blocked: nat
    ghost var log: seq<Order>

    ghost predicate Valid()
      reads this
    {
      && structure.Protected()
      // what is held is the starting holding plus the venue's own fills, leg by leg
      && held == Net(start, fills)
      // and the fills are what the orders got
      && Booked(log, fills)
    }

    constructor (structure: Structure, held: Legs)
      requires structure.Protected()
      ensures Valid() && this.structure == structure && start == held && this.held == held
      ensures fills == [] && orders == 0 && blocked == 0 && log == []
    {
      this.structure := structure;
      start := held;
      this.held := held;
      fills, orders, blocked, log := [], 0, 0, [];
    }

    /** One attempt. The guard is asked on the legs held and the order; `blocked` counts its refusals. `answer` is
        the broker's choice: any other refusal, or any book. */
    method Send(role: LegRole, offer: Offer, quantity: nat, closing: bool, answer: Option<BookSide>)
      returns (filled: nat, ghost order: Order)
      requires Valid() && quantity > 0
      modifies this
      ensures Valid() && filled <= quantity
      ensures held == old(held).Set(role, old(held).Get(role) + Units(SideOf(role, closing), filled))
      ensures orders == old(orders) + 1
      ensures log == old(log) + [order] && fills == old(fills) + Written(order)
      ensures order == Order(role, closing, quantity, old(held), held, offer, order.answer, order.row)
      ensures var full := old(held).Set(role, old(held).Get(role) + Units(SideOf(role, closing), quantity));
              if IsCovered(structure.Filled(full))
              then order.answer == answer && blocked == old(blocked)
              else order.answer == None && blocked == old(blocked) + 1
      ensures Executed(order) && filled == GotOf(order.row).filled
    {
      var covered := Guard(role, Units(SideOf(role, closing), quantity));
      orders := orders + 1;
      if !covered {
        blocked := blocked + 1;
      }
      filled, order := Execute(role, offer, quantity, closing, if covered then answer else None);
      BookedMore(log, old(fills), order);
      log := log + [order];
    }

    /** The gateway's covered-overnight guard. */
    method Guard(role: LegRole, units: int) returns (covered: bool)
      ensures covered <==> IsCovered(structure.Filled(held.Set(role, held.Get(role) + units)))
    {
      var why := Uncovered(BookAfter([], structure.Filled(held), structure.RowOf(role, units)));
      GuardIsHeldAfter(structure, held, role, units);
      covered := why == [];
    }

    /** An order against the book it met, if any. */
    method Execute(role: LegRole, offer: Offer, quantity: nat, closing: bool, answer: Option<BookSide>)
      returns (filled: nat, ghost order: Order)
      requires held == Net(start, fills) && quantity > 0
      modifies this`fills, this`held
      ensures held == Net(start, fills) && filled <= quantity
      ensures held == old(held).Set(role, old(held).Get(role) + Units(SideOf(role, closing), filled))
      ensures fills == old(fills) + Written(order)
      ensures order == Order(role, closing, quantity, old(held), held, offer, answer, order.row)
      ensures Executed(order) && filled == GotOf(order.row).filled
    {
      var side, got := SideOf(role, closing), Got(0, 0);
      ghost var before := held;
      ghost var row: Option<Fill> := None;
      if answer.Some? {
        got := SimulateFill(side, answer.value, quantity, offer.attempt.price);
      }
      if got.filled > 0 {
        Record(Fill(role, side, got.filled, got.cost));
        row := Some(Fill(role, side, got.filled, got.cost));
      } else if answer.Some? {
        NothingCosts(side, answer.value, offer.attempt.price, quantity, got);
      }
      SetSame(before, role);
      filled, order := got.filled, Order(role, closing, quantity, before, held, offer, answer, row);
    }

    /** A fill goes to the table and to what is held, together. */
    method Record(f: Fill)
      requires held == Net(start, fills)
      modifies this`fills, this`held
      ensures held == Net(start, fills)
      ensures fills == old(fills) + [f]
      ensures held == old(held).Set(f.role, old(held).Get(f.role) + Units(f.side, f.quantity))
    {
      fills := fills + [f];
      assert fills[..|fills| - 1] == old(fills);
      held := held.Set(f.role, held.Get(f.role) + Units(f.side, f.quantity));
    }
  }

  // ----- the procedures -----

  datatype Outcome = Open | AbandonedEntry | FlatExit | PartialExit | Interrupted

  /** The position the procedure believes in, unsigned. */
  class Result {
    var position: Legs

    constructor (position: Legs)
      ensures this.position == position
    {
      this.position := position;
    }
  }

  /** Venue and result agree, leg by leg, and no short exceeds its long. */
  ghost predicate InStep(venue: OptionVenue, result: Result)
    reads venue, result
  {
    match result.position
    case Legs(lp, lc, sp, sc) =>
      venue.Valid() && 0 <= sp <= lp && 0 <= sc <= lc && venue.held == Legs(lp, lc, -sp, -sc)
  }

  lemma InStepMeans(venue: OptionVenue, result: Result)
    ensures InStep(venue, result) <==>
              venue.Valid() && result.position.NonNegative() && result.position.NeverNaked()
              && venue.held == result.position.Signed()
  {
  }

  /** The position an order could leave if it filled in full, which the source asserts is never naked. */
  function Worst(o: Order): Legs {
    Moved(o.before.Signed(), o.role, o.quantity, o.closing)
  }

  /** An order that may be sent: the book before it, the book after it, and the book it could leave
      are all covered positions, and a long is only ever sold with its short gone. */
  ghost predicate SafeOrder(o: Order) {
    && o.before.Signed().NonNegative() && o.before.Signed().NeverNaked()
    && o.after.Signed().NonNegative() && o.after.Signed().NeverNaked()
    && Worst(o).NonNegative() && Worst(o).NeverNaked()
    && (o.closing && o.role.IsLong() ==> o.before.Get(o.role.Protects()) == 0)
  }

  /** A safe order for one leg, with the rest of what is held as it was. */
  ghost predicate LegOrder(o: Order, role: LegRole, closing: bool, held: Legs) {
    match o
    case Order(r, c, _, before, _, _, _, _) =>
      && SafeOrder(o) && r == role && c == closing
      && before == held.Set(role, before.Get(role))
  }

  /** The orders sent since `from` are all for one leg and safe. */
  ghost predicate OneLeg(log: seq<Order>, from: seq<Order>, role: LegRole, closing: bool, held: Legs) {
    match held
    case Legs(_, _, _, _) =>
      && |from| <= |log| && log[..|from|] == from
      && forall k :: |from| <= k < |log| ==> LegOrder(log[k], role, closing, held)
  }

  lemma OneLegMore(log: seq<Order>, from: seq<Order>, role: LegRole, closing: bool, held: Legs, o: Order)
    requires OneLeg(log, from, role, closing, held) && LegOrder(o, role, closing, held)
    ensures OneLeg(log + [o], from, role, closing, held)
  {
    assert (log + [o])[..|from|] == log[..|from|];
  }

  /** A leg may be sent: a close of what is open, a long's only once its short is gone; an opening
      short only inside its long. */
  predicate MaySend(p: Legs, role: LegRole, quantity: nat, closing: bool) {
    if closing then
      quantity == p.Get(role) && (role.IsLong() ==> p.Get(role.Protects()) == 0)
    else
      !role.IsLong() ==> p.Get(role) + quantity <= p.Get(if role == ShortPut then LongPut else LongCall)
  }

  function Moved(p: Legs, role: LegRole, filled: int, closing: bool): Legs {
    p.Set(role, p.Get(role) + if closing then -filled else filled)
  }

  /** Part-way through a leg, the rest of it still leaves the book safe. */
  lemma PartWay(p: Legs, role: LegRole, quantity: nat, closing: bool, done: nat)
    requires p.NonNegative() && p.NeverNaked() && MaySend(p, role, quantity, closing) && done <= quantity
    ensures Moved(p, role, done, closing).NonNegative() && Moved(p, role, done, closing).NeverNaked()
    ensures Moved(p, role, done, closing).Signed()
            == p.Signed().Set(role, p.Signed().Get(role) + Units(SideOf(role, closing), done))
    ensures closing && role.IsLong() ==> Moved(p, role, done, closing).Signed().Get(role.Protects()) == 0
  {
  }

  lemma MovedTwice(p: Legs, role: LegRole, a: int, b: int, closing: bool)
    ensures Moved(Moved(p, role, a, closing), role, b, closing) == Moved(p, role, a + b, closing)
  {
  }

  /** The guard's answer to an attempt for the rest of a leg: the book it could leave is covered. */
  lemma RestIsCovered(st: Structure, p0: Legs, role: LegRole, quantity: nat, closing: bool, remaining: nat)
    requires st.Protected() && p0.NonNegative() && p0.NeverNaked() && MaySend(p0, role, quantity, closing)
    requires remaining <= quantity
    ensures var h := Moved(p0, role, quantity - remaining, closing).Signed();
            IsCovered(st.Filled(h.Set(role, h.Get(role) + Units(SideOf(role, closing), remaining))))
  {
    PartWay(p0, role, quantity, closing, quantity);
    HeldIsCovered(st, Moved(p0, role, quantity, closing));
    SignedStep(p0, role, closing, quantity - remaining, remaining);
  }

  /** An order for `asked` units of a leg that took the position from `p` to `q`. */
  predicate Takes(o: Order, role: LegRole, closing: bool, asked: nat, p: Legs, q: Legs) {
    match o
    case Order(r, c, n, before, after, _, _, _) =>
      r == role && c == closing && n == asked && before == p.Signed() && after == q.Signed()
  }

  lemma PartIsSafe(p0: Legs, role: LegRole, quantity: nat, closing: bool, done: nat, got: nat, asked: nat, o: Order)
    requires p0.NonNegative() && p0.NeverNaked() && MaySend(p0, role, quantity, closing)
    requires done + got <= quantity == done + asked
    requires Takes(o, role, closing, asked, Moved(p0, role, done, closing), Moved(p0, role, done + got, closing))
    ensures SafeOrder(o)
  {
    PartWay(p0, role, quantity, closing, done);
    PartWay(p0, role, quantity, closing, done + got);
    PartWay(p0, role, quantity, closing, quantity);
    MovedTwice(p0, role, done, asked, closing);
    SignedTwice(Moved(p0, role, done, closing));
    SignedTwice(Moved(p0, role, done + got, closing));
  }

  lemma SignedTwice(p: Legs)
    ensures p.Signed().Signed() == p
  {
  }

  lemma PartFits(p0: Legs, role: LegRole, quantity: nat, closing: bool, done: nat, got: nat, asked: nat, o: Order)
    requires p0.NonNegative() && p0.NeverNaked() && MaySend(p0, role, quantity, closing)
    requires done + got <= quantity == done + asked
    requires Takes(o, role, closing, asked, Moved(p0, role, done, closing), Moved(p0, role, done + got, closing))
    ensures LegOrder(o, role, closing, p0.Signed())
  {
    PartIsSafe(p0, role, quantity, closing, done, got, asked, o);
  }

  /** These rows close `p0` down to `p`: each closes no more of a leg than is open, and a long only once its own
      short is gone. */
  predicate ExitFills(p0: Legs, fills: seq<Fill>, p: Legs)
    decreases |fills|
  {
    if fills == [] then p == p0
    else
      var f := fills[|fills| - 1];
      && f.side == SideOf(f.role, true) && p.Get(f.role) >= 0
      && (f.role.IsLong() ==> p.Get(f.role.Protects()) == 0)
      && ExitFills(p0, fills[..|fills| - 1], p.Set(f.role, p.Get(f.role) + f.quantity))
  }

  /** The rows added since `from` do. */
  predicate ExitSince(fills: seq<Fill>, from: seq<Fill>, p0: Legs, p: Legs) {
    match p
    case Legs(_, _, _, _) => from <= fills && ExitFills(p0, fills[|from|..], p)
  }

  lemma {:induction false} ExitThen(p0: Legs, a: seq<Fill>, p: Legs, b: seq<Fill>, q: Legs)
    requires ExitFills(p0, a, p) && ExitFills(p, b, q)
    ensures ExitFills(p0, a + b, q)
    decreases |b|
  {
    if b == [] {
      assert a + b == a;
    } else {
      var f := b[|b| - 1];
      ExitThen(p0, a, p, b[..|b| - 1], q.Set(f.role, q.Get(f.role) + f.quantity));
      assert (a + b)[..|a + b| - 1] == a + b[..|b| - 1];
    }
  }

  lemma ExitSinceStart(fills: seq<Fill>, p: Legs)
    ensures ExitSince(fills, fills, p, p)
  {
  }

  lemma ExitSinceMore(fills: seq<Fill>, mid: seq<Fill>, from: seq<Fill>, p0: Legs, p: Legs, q: Legs)
    requires ExitSince(mid, from, p0, p) && ExitSince(fills, mid, p, q)
    ensures ExitSince(fills, from, p0, q)
  {
    ExitThen(p0, mid[|from|..], p, fills[|mid|..], q);
    assert fills[|from|..] == mid[|from|..] + fills[|mid|..];
  }

  /** An attempt that filled has written one row. */
  ghost predicate AddsRow(fills: seq<Fill>, was: seq<Fill>, role: LegRole, closing: bool, got: nat) {
    if got == 0 then fills == was
    else exists cost :: fills == was + [Fill(role, SideOf(role, closing), got, cost)]
  }

  /** One attempt at a close, of which `got` units filled. */
  lemma OneClose(p: Legs, role: LegRole, got: nat, fills: seq<Fill>, was: seq<Fill>)
    requires got <= p.Get(role) && (role.IsLong() ==> p.Get(role.Protects()) == 0)
    requires AddsRow(fills, was, role, true, got)
    ensures ExitSince(fills, was, p, Moved(p, role, got, true))
  {
    if got > 0 {
      var f := fills[|was|];
      var q := Moved(p, role, got, true);
      assert fills[|was|..] == [f] && [f][..0] == [];
      assert q.Set(role, q.Get(role) + got) == p;
    }
  }

  /** What a leg that may be sent starts from. */
  predicate LegStart(p0: Legs, role: LegRole, quantity: nat, closing: bool) {
    match p0
    case Legs(_, _, _, _) => p0.NonNegative() && p0.NeverNaked() && MaySend(p0, role, quantity, closing)
  }

  /** A leg so far, `done` units of it filled: the position, the orders sent, and for a close the rows written. */
  ghost predicate LegSoFar(p0: Legs, role: LegRole, closing: bool, done: int, p: Legs,
                           log: seq<Order>, log0: seq<Order>, fills: seq<Fill>, fills0: seq<Fill>) {
    match p
    case Legs(_, _, _, _) =>
      && p == Moved(p0, role, done, closing) && OneLeg(log, log0, role, closing, p0.Signed())
      && (closing ==> ExitSince(fills, fills0, p0, p))
  }

  lemma LegBegins(p0: Legs, role: LegRole, closing: bool, log: seq<Order>, fills: seq<Fill>)
    ensures LegSoFar(p0, role, closing, 0, p0, log, log, fills, fills)
  {
    ExitSinceStart(fills, p0);
  }

  /** After an attempt of the rest of a leg of which `got` units filled. */
  lemma LegGoesOn(p0: Legs, role: LegRole, quantity: nat, closing: bool, done: nat, got: nat, p: Legs, held: Legs,
                  log: seq<Order>, log0: seq<Order>, was: seq<Fill>, fills: seq<Fill>, fills0: seq<Fill>, o: Order)
    requires LegStart(p0, role, quantity, closing) && done + got <= quantity
    requires LegSoFar(p0, role, closing, done, p, log, log0, was, fills0) && AddsRow(fills, was, role, closing, got)
    requires held == p.Signed().Set(role, p.Signed().Get(role) + Units(SideOf(role, closing), got))
    requires Takes(o, role, closing, quantity - done, p, held.Signed())
    ensures var p' := Moved(p, role, got, closing);
            && LegSoFar(p0, role, closing, done + got, p', log + [o], log0, fills, fills0)
            && held == p'.Signed() && p'.NonNegative() && p'.NeverNaked()
  {
    SignedStep(p0, role, closing, done, got);
    SignedTwice(Moved(p0, role, done + got, closing));
    MovedTwice(p0, role, done, got, closing);
    PartFits(p0, role, quantity, closing, done, got, quantity - done, o);
    OneLegMore(log, log0, role, closing, p0.Signed(), o);
    PartWay(p0, role, quantity, closing, done + got);
    if closing {
      LegCloses(p0, role, quantity, done, got, p, was, fills, fills0);
    }
  }

  lemma LegCloses(p0: Legs, role: LegRole, quantity: nat, done: nat, got: nat, p: Legs,
                  was: seq<Fill>, fills: seq<Fill>, fills0: seq<Fill>)
    requires LegStart(p0, role, quantity, true) && done + got <= quantity && p == Moved(p0, role, done, true)
    requires ExitSince(was, fills0, p0, p) && AddsRow(fills, was, role, true, got)
    ensures ExitSince(fills, fills0, p0, Moved(p, role, got, true))
  {
    OneClose(p, role, got, fills, was);
    ExitSinceMore(fills, was, fills0, p0, p, Moved(p, role, got, true));
  }

  // ----- what is asked, and at what price -----

  /** The price is what `next_attempt` makes of the quote. */
  ghost predicate Priced(o: Order, terms: Terms) {
    match o.offer
    case Offer(number, bid, ask, attempt) =>
      number >= 1 && Some(attempt) ==
        NextAttempt(number, SideOf(o.role, o.closing), bid, ask, terms, o.closing && !o.role.IsLong())
  }

  /** It asks for exactly what is missing: to nothing left for a close, to `goal` units otherwise. */
  ghost predicate Sound(o: Order, terms: Terms, goal: int) {
    match o
    case Order(role, closing, _, _, _, _, _, _) =>
      Priced(o, terms) && Worst(o).Get(role) == if closing then 0 else goal
  }

  ghost predicate AllSound(log: seq<Order>, from: seq<Order>, terms: Terms, goal: int) {
    match terms
    case Terms(_, _, _) =>
      && |from| <= |log| && log[..|from|] == from
      && forall k :: |from| <= k < |log| ==> Sound(log[k], terms, goal)
  }

  lemma AllSoundMore(log: seq<Order>, from: seq<Order>, terms: Terms, goal: int, o: Order)
    requires AllSound(log, from, terms, goal) && Sound(o, terms, goal)
    ensures AllSound(log + [o], from, terms, goal)
  {
    assert (log + [o])[..|from|] == log[..|from|];
  }

  lemma AllSoundTrans(log: seq<Order>, mid: seq<Order>, from: seq<Order>, terms: Terms, goal: int)
    requires AllSound(mid, from, terms, goal) && AllSound(log, mid, terms, goal)
    ensures AllSound(log, from, terms, goal)
  {
    assert log[..|from|] == mid[..|from|];
    forall k | |from| <= k < |log| ensures Sound(log[k], terms, goal) {
      if k < |mid| {
        assert log[k] == mid[k];
      }
    }
  }

  /** What an order of the rest of a leg asks for. */
  lemma AsksTheRest(o: Order, p0: Legs, role: LegRole, quantity: nat, closing: bool, done: nat, q: Legs)
    requires LegStart(p0, role, quantity, closing) && done <= quantity
    requires Takes(o, role, closing, quantity - done, Moved(p0, role, done, closing), q)
    ensures Worst(o).Get(role) == if closing then 0 else p0.Get(role) + quantity
  {
    SignedTwice(Moved(p0, role, done, closing));
  }

  /** The attempts of one leg, counted from 1. */
  ghost predicate Counted(log: seq<Order>, from: seq<Order>) {
    |from| <= |log| && forall k :: |from| <= k < |log| ==> log[k].offer.number == k - |from| + 1
  }

  /** The `n` attempts of one leg so far. */
  ghost predicate LegOffers(log: seq<Order>, from: seq<Order>, terms: Terms, goal: int, n: int) {
    match terms
    case Terms(_, _, _) => |log| == |from| + n && Counted(log, from) && AllSound(log, from, terms, goal)
  }

  lemma LegOffersMore(log: seq<Order>, from: seq<Order>, terms: Terms, goal: int, n: nat, o: Order)
    requires LegOffers(log, from, terms, goal, n) && Sound(o, terms, goal) && o.offer.number == n + 1
    ensures LegOffers(log + [o], from, terms, goal, n + 1)
  {
    AllSoundMore(log, from, terms, goal, o);
  }

  lemma NoOffers(log: seq<Order>, terms: Terms, goal: int)
    ensures LegOffers(log, log, terms, goal, 0)
  {
  }

  // ----- one leg -----

  /** An order for the rest of a leg: the guard lets it through. */
  method Place(venue: OptionVenue, role: LegRole, remaining: nat, closing: bool, offer: Offer, answer: Option<BookSide>,
               ghost p0: Legs, ghost quantity: nat) returns (got: nat, ghost order: Order)
    requires venue.Valid() && LegStart(p0, role, quantity, closing) && 0 < remaining <= quantity
    requires venue.held == Moved(p0, role, quantity - remaining, closing).Signed()
    modifies venue
    ensures venue.Valid() && got <= remaining && venue.blocked == old(venue.blocked)
    ensures venue.held == old(venue.held).Set(role, old(venue.held).Get(role) + Units(SideOf(role, closing), got))
    ensures venue.log == old(venue.log) + [order] && order.offer == offer && order.answer == answer
    ensures Takes(order, role, closing, remaining, old(venue.held).Signed(), venue.held.Signed())
    ensures AddsRow(venue.fills, old(venue.fills), role, closing, got)
  {
    RestIsCovered(venue.structure, p0, role, quantity, closing, remaining);
    got, order := venue.Send(role, offer, remaining, closing, answer);
    SignedTwice(order.before);
    SignedTwice(order.after);
    RowAdded(venue.fills, old(venue.fills), order);
  }

  lemma RowAdded(fills: seq<Fill>, was: seq<Fill>, o: Order)
    requires Executed(o) && fills == was + Written(o)
    ensures AddsRow(fills, was, o.role, o.closing, GotOf(o.row).filled)
  {
  }

  /** A leg being sent: what it started from and is for. */
  datatype Sending = Sending(p0: Legs, role: LegRole, quantity: nat, closing: bool, terms: Terms,
                             log0: seq<Order>, fills0: seq<Fill>) {
    function Goal(): int { p0.Get(role) + quantity }
  }

  /** After `n` attempts, with `remaining` units to go. */
  ghost predicate PartSent(venue: OptionVenue, result: Result, leg: Sending, remaining: int, n: int)
    reads venue, result
  {
    match leg
    case Sending(p0, role, quantity, closing, terms, log0, fills0) =>
      && InStep(venue, result) && LegStart(p0, role, quantity, closing) && 0 <= remaining <= quantity
      && LegSoFar(p0, role, closing, quantity - remaining, result.position, venue.log, log0, venue.fills, fills0)
      && LegOffers(venue.log, log0, terms, leg.Goal(), n)
  }

  /** An order for the rest of a leg, and the leg after it. */
  lemma PartGoesOn(leg: Sending, remaining: nat, n: nat, got: nat, p: Legs, held: Legs, log: seq<Order>,
                   was: seq<Fill>, fills: seq<Fill>, o: Order)
    requires LegStart(leg.p0, leg.role, leg.quantity, leg.closing) && got <= remaining <= leg.quantity
    requires LegSoFar(leg.p0, leg.role, leg.closing, leg.quantity - remaining, p, log, leg.log0, was, leg.fills0)
    requires LegOffers(log, leg.log0, leg.terms, leg.Goal(), n) && o.offer.number == n + 1 && Priced(o, leg.terms)
    requires AddsRow(fills, was, leg.role, leg.closing, got)
    requires Takes(o, leg.role, leg.closing, remaining, p, held.Signed())
    requires held == p.Signed().Set(leg.role, p.Signed().Get(leg.role) + Units(SideOf(leg.role, leg.closing), got))
    ensures var p' := Moved(p, leg.role, got, leg.closing);
            && LegSoFar(leg.p0, leg.role, leg.closing, leg.quantity - (remaining - got), p', log + [o], leg.log0,
                        fills, leg.fills0)
            && LegOffers(log + [o], leg.log0, leg.terms, leg.Goal(), n + 1)
            && held == p'.Signed() && p'.NonNegative() && p'.NeverNaked()
  {
    LegGoesOn(leg.p0, leg.role, leg.quantity, leg.closing, leg.quantity - remaining, got, p, held, log, leg.log0,
              was, fills, leg.fills0, o);
    AsksTheRest(o, leg.p0, leg.role, leg.quantity, leg.closing, leg.quantity - remaining, held.Signed());
    LegOffersMore(log, leg.log0, leg.terms, leg.Goal(), n, o);
  }

  /** One attempt of a leg, the rest of whose `quantity` units are already filled. */
  method SendOnce(venue: OptionVenue, result: Result, role: LegRole, remaining: nat, closing: bool, offer: Offer,
                  answer: Option<BookSide>, ghost leg: Sending, ghost n: nat)
    returns (got: nat)
    requires PartSent(venue, result, leg, remaining, n) && remaining > 0 && leg.role == role && leg.closing == closing
    requires offer.number == n + 1
    requires Some(offer.attempt) == NextAttempt(offer.number, SideOf(role, closing), offer.bid, offer.ask, leg.terms,
                                                closing && !role.IsLong())
    modifies venue, result
    ensures got <= remaining && PartSent(venue, result, leg, remaining - got, n + 1)
    ensures venue.blocked == old(venue.blocked)
  {
    ghost var p, log, fills := result.position, venue.log, venue.fills;
    InStepMeans(venue, result);
    SignedTwice(p);
    ghost var order;
    got, order := Place(venue, role, remaining, closing, offer, answer, leg.p0, leg.quantity);
    PartGoesOn(leg, remaining, n, got, p, venue.held, log, fills, venue.fills, order);
    result.position := Moved(result.position, role, got, closing);
    InStepMeans(venue, result);
  }

  /** How many attempts a leg may have. */
  function Tries(role: LegRole, closing: bool, terms: Terms): nat {
    if closing && !role.IsLong() && terms.finalMarketable then 3 else 2
  }

  /** Attempt `number` on one quote, if there is such an attempt. */
  method TryOnce(venue: OptionVenue, result: Result, role: LegRole, remaining: nat, closing: bool, terms: Terms,
                 number: nat, bid: nat, ask: nat, answer: Option<BookSide>, ghost leg: Sending)
    returns (got: nat, offered: bool)
    requires leg.role == role && leg.closing == closing && leg.terms == terms
    requires PartSent(venue, result, leg, remaining, number - 1) && remaining > 0 && number >= 1
    modifies venue, result
    ensures got <= remaining && (offered <==> number <= Tries(role, closing, terms)) && (!offered ==> got == 0)
    ensures PartSent(venue, result, leg, remaining - got, if offered then number else number - 1)
    ensures venue.blocked == old(venue.blocked)
  {
    var reduces := closing && !role.IsLong();
    var attempt := NextAttempt(number, SideOf(role, closing), bid, ask, terms, reduces);
    AttemptsGiven(number, SideOf(role, closing), bid, ask, terms, reduces);
    got, offered := 0, attempt.Some?;
    if offered {
      got := SendOnce(venue, result, role, remaining, closing, Offer(number, bid, ask, attempt.value), answer,
                      leg, number - 1);
    }
  }

  /** Attempt `number` on whatever quote and book the broker has. Without a quote the source raises, and what has
      filled so far stands. */
  method TryQuoted(venue: OptionVenue, result: Result, role: LegRole, remaining: nat, closing: bool, terms: Terms,
                   number: nat, ghost leg: Sending)
    returns (got: nat, offered: bool, quoted: bool)
    requires leg.role == role && leg.closing == closing && leg.terms == terms
    requires PartSent(venue, result, leg, remaining, number - 1) && remaining > 0 && number >= 1
    modifies venue, result
    ensures got <= remaining && (!offered ==> got == 0) && (offered ==> quoted)
    ensures quoted ==> (offered <==> number <= Tries(role, closing, terms))
    ensures PartSent(venue, result, leg, remaining - got, if offered then number else number - 1)
    ensures venue.blocked == old(venue.blocked)
  {
    quoted := *;
    got, offered := 0, false;
    if quoted {
      var bid: nat := *;
      var ask: nat := *;
      var answer: Option<BookSide> := *;
      got, offered := TryOnce(venue, result, role, remaining, closing, terms, number, bid, ask, answer, leg);
    }
  }

  /** The attempts of a leg. */
  method SendAttempts(venue: OptionVenue, result: Result, role: LegRole, quantity: nat, closing: bool, terms: Terms,
                      ghost leg: Sending)
    returns (remaining: nat, quoted: bool, ghost n: nat)
    requires leg.role == role && leg.closing == closing && leg.quantity == quantity > 0 && leg.terms == terms
    requires PartSent(venue, result, leg, quantity, 0)
    modifies venue, result
    ensures remaining <= quantity && PartSent(venue, result, leg, remaining, n) && n <= Tries(role, closing, terms)
    ensures if quoted then n > 0 && (remaining > 0 ==> n == Tries(role, closing, terms)) else remaining > 0
    ensures venue.blocked == old(venue.blocked)
  {
    remaining, quoted, n := quantity, true, 0;
    for number := 1 to MAX_ATTEMPTS + 1
      invariant n == number - 1 <= Tries(role, closing, terms) && 0 < remaining <= quantity && quoted
      invariant PartSent(venue, result, leg, remaining, n)
      invariant venue.blocked == old(venue.blocked)
    {
      var got, offered;
      got, offered, quoted := TryQuoted(venue, result, role, remaining, closing, terms, number, leg);
      if !offered {
        return;
      }
      remaining, n := remaining - got, number;
      if remaining == 0 {
        return;
      }
    }
  }

  /** `_send`: one leg's attempts until it fills or they run out. No attempt could leave the book
      naked, so the source's assertion never fires, and the guard refuses none of them. Attempts are numbered from
      1, each priced on its own quote, for exactly what is missing; a leg that stays short with every quote given
      has had them all. */
  method SendLeg(venue: OptionVenue, result: Result, role: LegRole, quantity: nat, closing: bool, terms: Terms)
    returns (filled: nat, quoted: bool)
    requires InStep(venue, result) && quantity > 0 && MaySend(result.position, role, quantity, closing)
    modifies venue, result
    ensures InStep(venue, result) && filled <= quantity
    ensures result.position == Moved(old(result.position), role, filled, closing)
    ensures !quoted ==> filled < quantity
    ensures quoted ==> |venue.log| > |old(venue.log)|
    ensures quoted && filled < quantity ==> |venue.log| == |old(venue.log)| + Tries(role, closing, terms)
    ensures |venue.log| <= |old(venue.log)| + Tries(role, closing, terms)
    ensures venue.blocked == old(venue.blocked)
    ensures OneLeg(venue.log, old(venue.log), role, closing, old(venue.held))
    ensures AllSound(venue.log, old(venue.log), terms, old(result.position).Get(role) + quantity)
    ensures Counted(venue.log, old(venue.log))
    ensures closing ==> ExitSince(venue.fills, old(venue.fills), old(result.position), result.position)
  {
    ghost var leg := Sending(result.position, role, quantity, closing, terms, venue.log, venue.fills);
    LegBegins(leg.p0, role, closing, leg.log0, leg.fills0);
    NoOffers(leg.log0, terms, leg.Goal());
    InStepMeans(venue, result);
    var remaining;
    ghost var n;
    remaining, quoted, n := SendAttempts(venue, result, role, quantity, closing, terms, leg);
    filled := quantity - remaining;
  }

  /** The signed holding after `more` units on top of `done`. */
  lemma SignedStep(p: Legs, role: LegRole, closing: bool, done: int, more: int)
    ensures var h := Moved(p, role, done, closing).Signed();
            h.Set(role, h.Get(role) + Units(SideOf(role, closing), more))
              == Moved(p, role, done + more, closing).Signed()
    ensures Moved(p, role, done, closing).Signed()
            == p.Signed().Set(role, Moved(p, role, done, closing).Signed().Get(role))
  {
  }

  /** `next_exit_leg`: shorts first, calls before puts; a long is not offered while its short is open. */
  function NextExitLeg(p: Legs): (r: Option<LegRole>)
    ensures r.None? <==> p.shortCall <= 0 && p.shortPut <= 0 && p.longCall <= 0 && p.longPut <= 0
    ensures r.Some? ==> p.Get(r.value) > 0
    ensures r == Some(ShortPut) ==> p.shortCall <= 0
    ensures r == Some(LongPut) ==> p.longCall <= 0
    ensures r.Some? && r.value.IsLong() ==> p.shortCall <= 0 && p.shortPut <= 0
  {
    if p.shortCall > 0 then Some(ShortCall)
    else if p.shortPut > 0 then Some(ShortPut)
    else if p.longCall > 0 then Some(LongCall)
    else if p.longPut > 0 then Some(LongPut)
    else None
  }

  /** A position part-way through an exit from `p0`: never naked, nothing grown, and a long touched only once
      its own short is gone. */
  predicate Exiting(p0: Legs, p: Legs) {
    match p
    case Legs(lp, lc, sp, sc) =>
      && p.NonNegative() && p.NeverNaked() && p.Within(p0)
      && (lp < p0.longPut ==> sp == 0) && (lc < p0.longCall ==> sc == 0)
  }

  /** Every order sent since `from` closes and is safe. */
  ghost predicate ExitOrders(log: seq<Order>, from: seq<Order>) {
    && |from| <= |log| && log[..|from|] == from
    && forall k :: |from| <= k < |log| ==> SafeOrder(log[k]) && log[k].closing
  }

  lemma {:induction false} ExitKeeps(p0: Legs, fills: seq<Fill>, p: Legs)
    requires p0.NonNegative() && p0.NeverNaked() && ExitFills(p0, fills, p)
    ensures Exiting(p0, p)
    decreases |fills|
  {
    if fills != [] {
      var f := fills[|fills| - 1];
      ExitKeeps(p0, fills[..|fills| - 1], p.Set(f.role, p.Get(f.role) + f.quantity));
    }
  }

  /** The exit has sent an order for this leg. */
  ghost predicate Offered(log: seq<Order>, from: seq<Order>, role: LegRole) {
    exists k :: |from| <= k < |log| && log[k].closing && log[k].role == role
  }

  /** One leg's orders, as part of an exit that has come to `mid`. */
  lemma ExitLeg(p: Legs, role: LegRole, log: seq<Order>, mid: seq<Order>, from: seq<Order>)
    requires ExitOrders(mid, from) && OneLeg(log, mid, role, true, p.Signed())
    ensures ExitOrders(log, from)
    ensures |log| > |mid| ==> Offered(log, from, role)
    ensures forall r :: Offered(mid, from, r) ==> Offered(log, from, r)
  {
    forall k | |from| <= k < |log| ensures SafeOrder(log[k]) && log[k].closing {
      if k < |mid| {
        assert log[k] == mid[k];
      } else {
        assert LegOrder(log[k], role, true, p.Signed());
      }
    }
    assert log[..|from|] == mid[..|from|];
    if |log| > |mid| {
      assert LegOrder(log[|mid|], role, true, p.Signed());
    }
    forall r | Offered(mid, from, r) ensures Offered(log, from, r) {
      var k :| |from| <= k < |mid| && mid[k].closing && mid[k].role == r;
      assert log[k] == mid[k];
    }
  }

  /** A close asks for everything that is open, whatever the goal of the leg's opening. */
  lemma ClosesSound(log: seq<Order>, from: seq<Order>, terms: Terms, goal: int, p: Legs, role: LegRole, other: int)
    requires AllSound(log, from, terms, goal) && OneLeg(log, from, role, true, p.Signed())
    ensures AllSound(log, from, terms, other)
  {
    forall k | |from| <= k < |log| ensures Sound(log[k], terms, other) {
      assert LegOrder(log[k], role, true, p.Signed());
    }
  }

  lemma ExitSound(log: seq<Order>, from: seq<Order>, terms: Terms, goal: int)
    requires AllSound(log, from, terms, 0) && ExitOrders(log, from)
    ensures AllSound(log, from, terms, goal)
  {
    forall k | |from| <= k < |log| ensures Sound(log[k], terms, goal) {
      assert log[k].closing && Sound(log[k], terms, 0);
    }
  }

  /** An exit so far: what it sent, what it filled, and the legs it has offered. */
  ghost predicate ExitSoFar(log: seq<Order>, log0: seq<Order>, terms: Terms, fills: seq<Fill>, fills0: seq<Fill>,
                            p0: Legs, p: Legs, tried: set<LegRole>) {
    match p
    case Legs(_, _, _, _) =>
      && ExitOrders(log, log0) && AllSound(log, log0, terms, 0) && ExitSince(fills, fills0, p0, p)
      && forall r :: r in tried ==> Offered(log, log0, r)
  }

  /** One leg of an exit. */
  method CloseLeg(venue: OptionVenue, result: Result, role: LegRole, terms: Terms,
                  ghost log0: seq<Order>, ghost fills0: seq<Fill>, ghost p0: Legs, ghost tried: set<LegRole>)
    returns (quoted: bool)
    requires InStep(venue, result) && NextExitLeg(result.position) == Some(role)
    requires ExitSoFar(venue.log, log0, terms, venue.fills, fills0, p0, result.position, tried)
    modifies venue, result
    ensures InStep(venue, result) && venue.blocked == old(venue.blocked)
    ensures ExitSoFar(venue.log, log0, terms, venue.fills, fills0, p0, result.position,
                      if quoted then tried + {role} else tried)
    ensures !quoted ==> !result.position.Flat()
  {
    ghost var p, mid, fills := result.position, venue.log, venue.fills;
    var filled;
    filled, quoted := SendLeg(venue, result, role, result.position.Get(role), true, terms);
    ExitLeg(p, role, venue.log, mid, log0);
    ClosesSound(venue.log, mid, terms, p.Get(role) + p.Get(role), p, role, 0);
    AllSoundTrans(venue.log, mid, log0, terms, 0);
    ExitSinceMore(venue.fills, fills, fills0, p0, p, result.position);
    assert result.position.Get(role) == p.Get(role) - filled;
  }

  /** `run_exit`: closes what is open, shorts first. By its own orders it reports flat exactly when nothing is
      left, and partial only with a leg left that it has offered; every order on the way is safe and none is
      refused by the guard; every row it writes closes, and a long's only once its short is gone. */
  method RunExit(venue: OptionVenue, result: Result, terms: Terms)
    returns (outcome: Outcome)
    requires InStep(venue, result)
    modifies venue, result
    ensures InStep(venue, result)
    ensures outcome == FlatExit || outcome == PartialExit || outcome == Interrupted
    ensures outcome == FlatExit <==> result.position.Flat()
    ensures outcome == PartialExit ==> LegLeft(venue.log, old(venue.log), result.position)
    ensures venue.blocked == old(venue.blocked)
    ensures ExitOrders(venue.log, old(venue.log)) && AllSound(venue.log, old(venue.log), terms, 0)
    ensures ExitSince(venue.fills, old(venue.fills), old(result.position), result.position)
  {
    ghost var p0, log0, fills0 := result.position, venue.log, venue.fills;
    var tried: set<LegRole> := {};
    outcome := Open;
    ExitSinceStart(fills0, p0);
    while outcome == Open
      invariant InStep(venue, result) && venue.blocked == old(venue.blocked)
      invariant outcome == Open || outcome == FlatExit || outcome == PartialExit || outcome == Interrupted
      invariant outcome != Open ==> (outcome == FlatExit <==> result.position.Flat())
      invariant outcome == PartialExit ==> LegLeft(venue.log, log0, result.position)
      invariant ExitSoFar(venue.log, log0, terms, venue.fills, fills0, p0, result.position,
                          if outcome == Open then tried else {})
      decreases {LongPut, LongCall, ShortPut, ShortCall} - tried, outcome == Open
    {
      var role := NextExitLeg(result.position);
      if role.None? {
        outcome := FlatExit;
      } else if role.value in tried {
        outcome := PartialExit;
      } else {
        assert role.value in {LongPut, LongCall, ShortPut, ShortCall};
        var quoted := CloseLeg(venue, result, role.value, terms, log0, fills0, p0, tried);
        tried := tried + {role.value};
        if !quoted {
          outcome := Interrupted;
        }
      }
    }
  }

  /** The next leg to close is one the exit has offered already. */
  ghost predicate LegLeft(log: seq<Order>, from: seq<Order>, p: Legs) {
    NextExitLeg(p).Some? && Offered(log, from, NextExitLeg(p).value)
  }

  /** `entry_sequence`: puts before calls within longs and within shorts. */
  function EntryOrder(i: nat): LegRole {
    if i == 0 then LongPut else if i == 1 then LongCall else if i == 2 then ShortPut else ShortCall
  }

  /** The legs of a structure: no short without its long. */
  ghost predicate NoNakedShort(roles: set<LegRole>) {
    (ShortPut in roles ==> LongPut in roles) && (ShortCall in roles ==> LongCall in roles)
  }

  /** The first `n` legs of the entry order that belong to the structure, each full. */
  function FullUpTo(roles: set<LegRole>, quantity: nat, n: nat): Legs
    requires n <= 4
  {
    Legs(if n > 0 && LongPut in roles then quantity else 0,
         if n > 1 && LongCall in roles then quantity else 0,
         if n > 2 && ShortPut in roles then quantity else 0,
         if n > 3 && ShortCall in roles then quantity else 0)
  }

  /** An entry's orders: all safe, and an opening short only after every long of the structure is
      filled in full. */
  ghost predicate EntryOrders(log: seq<Order>, from: seq<Order>, roles: set<LegRole>, quantity: nat) {
    && |from| <= |log| && log[..|from|] == from
    && forall k :: |from| <= k < |log| ==> EntrySafe(log[k], roles, quantity)
  }

  ghost predicate EntrySafe(o: Order, roles: set<LegRole>, quantity: nat) {
    SafeOrder(o) && (!o.closing && !o.role.IsLong() ==> LongsFull(o.before, roles, quantity))
  }

  predicate LongsFull(held: Legs, roles: set<LegRole>, quantity: nat) {
    (LongPut in roles ==> held.longPut == quantity) && (LongCall in roles ==> held.longCall == quantity)
  }

  /** And each priced on its quote for exactly what is missing. */
  ghost predicate EntryLog(log: seq<Order>, from: seq<Order>, roles: set<LegRole>, quantity: nat, terms: Terms) {
    match terms
    case Terms(_, _, _) => EntryOrders(log, from, roles, quantity) && AllSound(log, from, terms, quantity)
  }

  /** Every order since `from` opens. */
  ghost predicate OnlyOpens(log: seq<Order>, from: seq<Order>) {
    |from| <= |log| && log[..|from|] == from && forall k :: |from| <= k < |log| ==> !log[k].closing
  }

  lemma OnlyOpensTrans(log: seq<Order>, mid: seq<Order>, from: seq<Order>)
    requires OnlyOpens(mid, from) && OnlyOpens(log, mid)
    ensures OnlyOpens(log, from)
  {
    assert log[..|from|] == mid[..|from|];
    forall k | |from| <= k < |log| ensures !log[k].closing {
      if k < |mid| {
        assert log[k] == mid[k];
      }
    }
  }

  lemma LegOnlyOpens(log: seq<Order>, from: seq<Order>, role: LegRole, held: Legs)
    requires OneLeg(log, from, role, false, held)
    ensures OnlyOpens(log, from)
  {
    forall k | |from| <= k < |log| ensures !log[k].closing {
      assert LegOrder(log[k], role, false, held);
    }
  }

  lemma EntryOrdersMore(log: seq<Order>, mid: seq<Order>, from: seq<Order>, roles: set<LegRole>, quantity: nat,
                        terms: Terms, role: LegRole, held: Legs)
    requires EntryLog(mid, from, roles, quantity, terms) && OneLeg(log, mid, role, false, held)
    requires AllSound(log, mid, terms, quantity)
    requires !role.IsLong() ==> LongsFull(held, roles, quantity)
    ensures EntryLog(log, from, roles, quantity, terms)
  {
    AllSoundTrans(log, mid, from, terms, quantity);
    forall k | |from| <= k < |log|
      ensures EntrySafe(log[k], roles, quantity)
    {
      if k < |mid| {
        assert log[k] == mid[k];
      }
    }
    assert log[..|from|] == mid[..|from|];
  }

  /** The structure, leg by leg in entry order. */
  lemma EntryStep(roles: set<LegRole>, quantity: nat, i: nat, filled: nat)
    requires NoNakedShort(roles) && i < 4 && filled <= quantity
    ensures var role, p := EntryOrder(i), FullUpTo(roles, quantity, i);
            if role in roles then
              && MaySend(p, role, quantity, false) && p.Get(role) == 0
              && FullUpTo(roles, quantity, i + 1) == Moved(p, role, quantity, false)
              && Moved(p, role, filled, false).Get(role) == filled
              && Moved(p, role, filled, false).Within(FullUpTo(roles, quantity, 4))
              && (!role.IsLong() ==> LongsFull(p.Signed(), roles, quantity))
            else FullUpTo(roles, quantity, i + 1) == p
  {
    assert i == 0 || i == 1 || i == 2 || i == 3;
  }

  lemma WithinTrans(a: Legs, b: Legs, c: Legs)
    requires a.Within(b) && b.Within(c)
    ensures a.Within(c)
  {
  }

  /** An abandoned entry has been through the exit: flat, or with a leg left that the exit offered. */
  ghost predicate ClosedOut(log: seq<Order>, from: seq<Order>, p: Legs) {
    p.Flat() || LegLeft(log, from, p)
  }

  /** Some leg of the structure is short of its quantity. */
  ghost predicate ShortOf(roles: set<LegRole>, quantity: nat, p: Legs) {
    exists role :: role in roles && p.Get(role) < quantity
  }

  lemma ShortOfFull(roles: set<LegRole>, quantity: nat, p: Legs)
    requires ShortOf(roles, quantity, p)
    ensures p != FullUpTo(roles, quantity, 4)
  {
  }

  /** `run_entry`: every leg in full, or nothing kept. `Open` means exactly that the structure is held; an
      abandoned entry has been through the exit and holds only what that could not close; whatever
      happens, each order was safe and no short went out before its longs were full. */
  method RunEntry(venue: OptionVenue, result: Result, roles: set<LegRole>, quantity: nat,
                  terms: Terms) returns (outcome: Outcome)
    requires NoNakedShort(roles) && quantity > 0
    requires InStep(venue, result) && result.position == NONE
    modifies venue, result
    ensures InStep(venue, result)
    ensures outcome == Open || outcome == AbandonedEntry || outcome == Interrupted
    ensures outcome == Open <==> result.position == FullUpTo(roles, quantity, 4)
    ensures outcome == AbandonedEntry ==> ClosedOut(venue.log, old(venue.log), result.position)
    ensures result.position.Within(FullUpTo(roles, quantity, 4))
    ensures venue.blocked == old(venue.blocked)
    ensures EntryLog(venue.log, old(venue.log), roles, quantity, terms)
    ensures outcome == Open ==> OnlyOpens(venue.log, old(venue.log))
  {
    var i := 0;
    outcome := Open;
    while i < 4 && outcome == Open
      invariant 0 <= i <= 4
      invariant InStep(venue, result)
      invariant outcome == Open || outcome == AbandonedEntry || outcome == Interrupted
      invariant if outcome == Open then result.position == FullUpTo(roles, quantity, i)
          else ShortOf(roles, quantity, result.position)
      invariant outcome == AbandonedEntry ==> ClosedOut(venue.log, old(venue.log), result.position)
      invariant result.position.Within(FullUpTo(roles, quantity, 4))
      invariant venue.blocked == old(venue.blocked)
      invariant EntryLog(venue.log, old(venue.log), roles, quantity, terms)
      invariant outcome == Open ==> OnlyOpens(venue.log, old(venue.log))
    {
      ghost var mid := venue.log;
      outcome := EnterLeg(venue, result, roles, quantity, i, terms, old(venue.log));
      i := i + 1;
      if outcome == Open {
        OnlyOpensTrans(venue.log, mid, old(venue.log));
      }
    }
    if outcome != Open {
      ShortOfFull(roles, quantity, result.position);
    }
  }

  /** A short leg: whatever filled is closed at once, in exit order. */
  method Abandon(venue: OptionVenue, result: Result, ghost roles: set<LegRole>, ghost quantity: nat,
                 terms: Terms, ghost from: seq<Order>) returns (outcome: Outcome)
    requires InStep(venue, result) && result.position.Within(FullUpTo(roles, quantity, 4))
    requires EntryLog(venue.log, from, roles, quantity, terms)
    modifies venue, result
    ensures InStep(venue, result) && result.position.Within(FullUpTo(roles, quantity, 4))
    ensures Exiting(old(result.position), result.position)
    ensures outcome == AbandonedEntry || outcome == Interrupted
    ensures outcome == AbandonedEntry ==> ClosedOut(venue.log, from, result.position)
    ensures venue.blocked == old(venue.blocked)
    ensures EntryLog(venue.log, from, roles, quantity, terms)
  {
    ghost var log1, fills, p := venue.log, venue.fills, result.position;
    InStepMeans(venue, result);
    outcome := RunExit(venue, result, terms);
    AbandonOrders(venue.log, log1, from, roles, quantity, terms);
    ExitKeeps(p, venue.fills[|fills|..], result.position);
    WithinTrans(result.position, p, FullUpTo(roles, quantity, 4));
    if outcome == PartialExit {
      OfferedSince(venue.log, log1, from, NextExitLeg(result.position).value);
    }
    outcome := if outcome == Interrupted then Interrupted else AbandonedEntry;
  }

  lemma OfferedSince(log: seq<Order>, mid: seq<Order>, from: seq<Order>, role: LegRole)
    requires Offered(log, mid, role) && |from| <= |mid|
    ensures Offered(log, from, role)
  {
  }

  /** One step of the entry: `Open` when the leg filled in full (or the structure has no such leg); otherwise
      it is short, and what was held has been through the exit. */
  method EnterLeg(venue: OptionVenue, result: Result, roles: set<LegRole>, quantity: nat, i: nat,
                  terms: Terms, ghost from: seq<Order>) returns (outcome: Outcome)
    requires NoNakedShort(roles) && quantity > 0 && i < 4
    requires InStep(venue, result) && result.position == FullUpTo(roles, quantity, i)
    requires result.position.Within(FullUpTo(roles, quantity, 4))
    requires EntryLog(venue.log, from, roles, quantity, terms)
    modifies venue, result
    ensures InStep(venue, result)
    ensures outcome == Open || outcome == AbandonedEntry || outcome == Interrupted
    ensures if outcome == Open then result.position == FullUpTo(roles, quantity, i + 1)
        else ShortOf(roles, quantity, result.position)
    ensures outcome == AbandonedEntry ==> ClosedOut(venue.log, from, result.position)
    ensures result.position.Within(FullUpTo(roles, quantity, 4))
    ensures venue.blocked == old(venue.blocked)
    ensures EntryLog(venue.log, from, roles, quantity, terms)
    ensures outcome == Open ==> OnlyOpens(venue.log, old(venue.log))
  {
    outcome := Open;
    EntryStep(roles, quantity, i, 0);
    if EntryOrder(i) in roles {
      var filled, quoted := OpenLeg(venue, result, roles, quantity, i, terms, from);
      EntryStep(roles, quantity, i, filled);
      if !quoted {
        outcome := Interrupted;
      } else if filled < quantity {
        ghost var p := result.position;
        outcome := Abandon(venue, result, roles, quantity, terms, from);
        SmallerStill(p, result.position, EntryOrder(i));
      }
    }
  }

  /** Leg `i` of the structure, sent. */
  method OpenLeg(venue: OptionVenue, result: Result, ghost roles: set<LegRole>, quantity: nat, i: nat, terms: Terms,
                 ghost from: seq<Order>) returns (filled: nat, quoted: bool)
    requires NoNakedShort(roles) && quantity > 0 && i < 4 && EntryOrder(i) in roles
    requires InStep(venue, result) && result.position == FullUpTo(roles, quantity, i)
    requires EntryLog(venue.log, from, roles, quantity, terms)
    modifies venue, result
    ensures InStep(venue, result) && filled <= quantity && (!quoted ==> filled < quantity)
    ensures result.position == Moved(FullUpTo(roles, quantity, i), EntryOrder(i), filled, false)
    ensures venue.blocked == old(venue.blocked)
    ensures EntryLog(venue.log, from, roles, quantity, terms) && OnlyOpens(venue.log, old(venue.log))
  {
    ghost var mid, held := venue.log, venue.held;
    EntryStep(roles, quantity, i, 0);
    InStepMeans(venue, result);
    filled, quoted := SendLeg(venue, result, EntryOrder(i), quantity, false, terms);
    EntryOrdersMore(venue.log, mid, from, roles, quantity, terms, EntryOrder(i), held);
    LegOnlyOpens(venue.log, mid, EntryOrder(i), held);
  }

  lemma SmallerStill(p: Legs, q: Legs, role: LegRole)
    requires Exiting(p, q)
    ensures q.Get(role) <= p.Get(role)
  {
  }

  lemma AbandonOrders(log: seq<Order>, mid: seq<Order>, from: seq<Order>, roles: set<LegRole>, quantity: nat,
                      terms: Terms)
    requires EntryLog(mid, from, roles, quantity, terms) && ExitOrders(log, mid) && AllSound(log, mid, terms, 0)
    ensures EntryLog(log, from, roles, quantity, terms)
  {
    ExitSound(log, mid, terms, quantity);
    AllSoundTrans(log, mid, from, terms, quantity);
    forall k | |from| <= k < |log|
      ensures EntrySafe(log[k], roles, quantity)
    {
      if k < |mid| {
        assert log[k] == mid[k];
      }
    }
    assert log[..|from|] == mid[..|from|];
  }
}
