/** Order client ids. The gateway answers a repeated id `DUPLICATE`, so no id may ever be issued
    twice, across attempts, passes and restarts (kite-momentum-rebalancer/app/fno_execute.py,
    `_client_id` and `FoStore.next_attempt`; app/options_execute.py, `client_id` and `DeskVenue`). */
module ClientIds {

  predicate ColonFree(s: string) {
    forall i :: 0 <= i < |s| ==> s[i] != ':'
  }

  function Digit(d: nat): char
    requires d < 10
  {
    ['0', '1', '2', '3', '4', '5', '6', '7', '8', '9'][d]
  }

  function Decimal(n: nat): string {
    if n < 10 then [Digit(n)] else Decimal(n / 10) + [Digit(n % 10)]
  }

  /** `plan:symbol`, `:CLOSE` for a close, and `:R<n>` from the second attempt on. */
  function ClientId(plan: string, symbol: string, closing: bool, number: nat): string {
    var bare := plan + ":" + symbol + if closing then ":CLOSE" else "";
    if number == 1 then bare else bare + ":R" + Decimal(number)
  }

  lemma {:induction false} DecimalInjective(a: nat, b: nat)
    requires Decimal(a) == Decimal(b)
    ensures a == b
  {
    var x, y := Decimal(a), Decimal(b);
    if a >= 10 && b >= 10 {
      assert x[..|x| - 1] == Decimal(a / 10) && y[..|y| - 1] == Decimal(b / 10);
      assert x[|x| - 1] == Digit(a % 10) && y[|y| - 1] == Digit(b % 10);
      DecimalInjective(a / 10, b / 10);
    } else if a >= 10 {
      DecimalNonEmpty(a / 10);
    } else if b >= 10 {
      DecimalNonEmpty(b / 10);
    } else {
      assert x[0] == y[0];
    }
  }

  lemma {:induction false} DecimalNonEmpty(n: nat)
    ensures |Decimal(n)| > 0
  {
  }

  predicate Tail(s: string) {
    s == "" || s[0] == ':'
  }

  lemma ShorterWordDiffers(a: string, x: string, b: string, y: string)
    requires |a| < |b| && ColonFree(b) && Tail(x)
    ensures a + x != b + y
  {
    assert (b + y)[|a|] == b[|a|];
    if x != "" {
      assert (a + x)[|a|] == ':';
    }
  }

  /** A colon-free word followed by nothing or a colon is where the word ends. */
  lemma WordEnds(a: string, x: string, b: string, y: string)
    requires ColonFree(a) && ColonFree(b) && Tail(x) && Tail(y)
    requires a + x == b + y
    ensures a == b && x == y
  {
    if |a| != |b| {
      if |a| < |b| {
        ShorterWordDiffers(a, x, b, y);
      } else {
        ShorterWordDiffers(b, y, a, x);
      }
    }
    assert a == (a + x)[..|a|] && b == (b + y)[..|b|];
    assert x == (a + x)[|a|..] && y == (b + y)[|b|..];
  }

  function Direction(closing: bool): string {
    if closing then ":CLOSE" else ""
  }

  function Attempt(number: nat): string {
    if number == 1 then "" else ":R" + Decimal(number)
  }

  lemma Shape(p: string, s: string, c: bool, n: nat)
    ensures ClientId(p, s, c, n) == p + (":" + (s + (Direction(c) + Attempt(n))))
    ensures Tail(Direction(c) + Attempt(n))
  {
    var bare := p + ":" + s + Direction(c);
    assert bare + Attempt(n) == p + (":" + (s + (Direction(c) + Attempt(n))));
    assert n == 1 ==> bare + "" == bare;
    assert n != 1 ==> bare + Attempt(n) == bare + ":R" + Decimal(n);
  }

  /** The id says which plan, which symbol, which direction and which attempt: nothing else shares it. */
  lemma Injective(p: string, s: string, c: bool, n: nat, p': string, s': string, c': bool, n': nat)
    requires ColonFree(p) && ColonFree(s) && ColonFree(p') && ColonFree(s')
    requires ClientId(p, s, c, n) == ClientId(p', s', c', n')
    ensures p == p' && s == s' && c == c' && n == n'
  {
    var t, t' := Direction(c) + Attempt(n), Direction(c') + Attempt(n');
    Shape(p, s, c, n);
    Shape(p', s', c', n');
    WordEnds(p, ":" + (s + t), p', ":" + (s' + t'));
    assert s + t == (":" + (s + t))[1..] && s' + t' == (":" + (s' + t'))[1..];
    WordEnds(s, t, s', t');
    DirectionShows(c, n, c', n');
  }

  lemma CloseDiffers(n: nat, n': nat)
    ensures Direction(true) + Attempt(n) != Direction(false) + Attempt(n')
  {
    assert (Direction(true) + Attempt(n))[1] == 'C';
    if n' != 1 {
      assert (Direction(false) + Attempt(n'))[1] == 'R';
    }
  }

  lemma AttemptInjective(n: nat, n': nat)
    requires Attempt(n) == Attempt(n')
    ensures n == n'
  {
    if n != 1 && n' != 1 {
      assert Decimal(n) == Attempt(n)[2..] && Decimal(n') == Attempt(n')[2..];
      DecimalInjective(n, n');
    }
  }

  lemma DirectionShows(c: bool, n: nat, c': bool, n': nat)
    requires Direction(c) + Attempt(n) == Direction(c') + Attempt(n')
    ensures c == c' && n == n'
  {
    CloseDiffers(n, n');
    CloseDiffers(n', n);
    var d := |Direction(c)|;
    assert Attempt(n) == (Direction(c) + Attempt(n))[d..] && Attempt(n') == (Direction(c) + Attempt(n'))[d..];
    AttemptInjective(n, n');
  }

  // ----- the FO store's persisted counter -----

  datatype Key = Key(plan: string, symbol: string, closing: bool)
  datatype Issue = Issue(key: Key, number: nat)

  function IdOf(i: Issue): string {
    ClientId(i.key.plan, i.key.symbol, i.key.closing, i.number)
  }

  /** The rows that outlive a process: the counters on the plans. `issued` is every id ever handed out. */
  class AttemptStore {
    var attempts: map<Key, nat>
    ghost var issued: seq<Issue>

    ghost predicate Valid()
      reads this
    {
      && (forall k :: 0 <= k < |issued| ==>
            && issued[k].key in attempts && 1 <= issued[k].number <= attempts[issued[k].key]
            && ColonFree(issued[k].key.plan) && ColonFree(issued[k].key.symbol))
      && (forall k, l :: 0 <= k < l < |issued| ==> issued[k] != issued[l])
    }

    constructor ()
      ensures Valid() && issued == [] && attempts == map[]
    {
      attempts := map[];
      issued := [];
    }

    method NextAttempt(key: Key) returns (number: nat)
      requires Valid() && ColonFree(key.plan) && ColonFree(key.symbol)
      modifies this
      ensures Valid()
      ensures number == (if key in old(attempts) then old(attempts)[key] else 0) + 1
      ensures attempts == old(attempts)[key := number]
      ensures issued == old(issued) + [Issue(key, number)]
    {
      number := (if key in attempts then attempts[key] else 0) + 1;
      attempts := attempts[key := number];
      issued := issued + [Issue(key, number)];
    }
  }

  /** So no two ids the store has ever handed out are the same string. */
  lemma NeverReissued(store: AttemptStore, k: nat, l: nat)
    requires store.Valid() && k < l < |store.issued|
    ensures IdOf(store.issued[k]) != IdOf(store.issued[l])
  {
    var a, b := store.issued[k], store.issued[l];
    if IdOf(a) == IdOf(b) {
      Injective(a.key.plan, a.key.symbol, a.key.closing, a.number, b.key.plan, b.key.symbol, b.key.closing, b.number);
    }
  }

  // ----- the options venue's close counter -----

  /** `op_order`: which leg, and whether the order's side is opposite to the leg's (a close). */
  datatype OrderRow = OrderRow(leg: nat, closing: bool, number: nat)

  /** `PgOptionsStore.close_orders`. */
  function CloseOrders(rows: seq<OrderRow>, leg: nat): nat {
    if rows == [] then 0
    else CloseOrders(rows[..|rows| - 1], leg)
         + if rows[|rows| - 1].leg == leg && rows[|rows| - 1].closing then 1 else 0
  }

  /** The close orders of a leg carry the numbers 1, 2, 3, ... in the order they were written. */
  ghost predicate Numbered(rows: seq<OrderRow>) {
    forall k :: 0 <= k < |rows| && rows[k].closing ==> rows[k].number == CloseOrders(rows[..k], rows[k].leg) + 1
  }

  lemma {:induction false} CloseOrdersGrow(rows: seq<OrderRow>, k: nat, leg: nat)
    requires k <= |rows|
    ensures CloseOrders(rows[..k], leg) <= CloseOrders(rows, leg)
    decreases |rows|
  {
    if k < |rows| {
      CloseOrdersGrow(rows[..|rows| - 1], k, leg);
      assert rows[..|rows| - 1][..k] == rows[..k];
    } else {
      assert rows[..k] == rows;
    }
  }

  /** So two closes of one leg never share a number. */
  lemma ClosesDiffer(rows: seq<OrderRow>, k: nat, l: nat)
    requires Numbered(rows) && k < l < |rows|
    requires rows[k].closing && rows[l].closing && rows[k].leg == rows[l].leg
    ensures rows[k].number < rows[l].number
  {
    var leg := rows[k].leg;
    assert rows[..l][..k + 1] == rows[..k + 1] && rows[..k + 1][..k] == rows[..k];
    CloseOrdersGrow(rows[..l], k + 1, leg);
  }

  // What was ever numbered: every close, its row written or not.

  /** The highest number a close of the leg was ever given. */
  function Highest(numbered: seq<OrderRow>, leg: nat): nat {
    if numbered == [] then 0
    else
      var h, last := Highest(numbered[..|numbered| - 1], leg), numbered[|numbered| - 1];
      if last.closing && last.leg == leg && last.number > h then last.number else h
  }

  /** A close of the leg was given this number. */
  ghost predicate WasGiven(numbered: seq<OrderRow>, leg: nat, number: nat) {
    exists k :: 0 <= k < |numbered| && numbered[k].closing && numbered[k].leg == leg && numbered[k].number == number
  }

  lemma {:induction false} GivenBelow(numbered: seq<OrderRow>, leg: nat, number: nat)
    requires WasGiven(numbered, leg, number)
    ensures number <= Highest(numbered, leg)
  {
    var n := |numbered| - 1;
    var k :| 0 <= k < |numbered| && numbered[k].closing && numbered[k].leg == leg && numbered[k].number == number;
    if k < n {
      assert numbered[..n][k] == numbered[k];
      GivenBelow(numbered[..n], leg, number);
    }
  }

  /** No number is passed over. */
  ghost predicate NoGaps(numbered: seq<OrderRow>) {
    forall leg, number: nat :: 1 <= number <= Highest(numbered, leg) ==> WasGiven(numbered, leg, number)
  }

  lemma GivenMore(numbered: seq<OrderRow>, o: OrderRow, leg: nat, number: nat)
    ensures WasGiven(numbered + [o], leg, number)
        <==> WasGiven(numbered, leg, number) || (o.closing && o.leg == leg && o.number == number)
  {
    var all := numbered + [o];
    assert all[|numbered|] == o;
    if WasGiven(numbered, leg, number) {
      var k :| 0 <= k < |numbered| && numbered[k].closing && numbered[k].leg == leg && numbered[k].number == number;
      assert all[k] == numbered[k];
    }
  }

  lemma {:induction false} HighestMore(numbered: seq<OrderRow>, o: OrderRow, leg: nat)
    ensures Highest(numbered + [o], leg) ==
            if o.closing && o.leg == leg && o.number > Highest(numbered, leg) then o.number else Highest(numbered, leg)
  {
    assert (numbered + [o])[..|numbered|] == numbered;
  }

  lemma {:induction false} NoGapsMore(numbered: seq<OrderRow>, o: OrderRow)
    requires NoGaps(numbered) && (o.closing ==> o.number <= Highest(numbered, o.leg) + 1)
    ensures NoGaps(numbered + [o])
  {
    forall leg, number: nat | 1 <= number <= Highest(numbered + [o], leg) ensures WasGiven(numbered + [o], leg, number)
    {
      HighestMore(numbered, o, leg);
      GivenMore(numbered, o, leg, number);
      if number <= Highest(numbered, leg) {
        assert WasGiven(numbered, leg, number);
      }
    }
  }

  class OrderTable {
    var rows: seq<OrderRow>
    ghost var numbered: seq<OrderRow>

    ghost predicate Valid()
      reads this
    {
      NoGaps(numbered) && forall leg :: CloseOrders(rows, leg) <= Highest(numbered, leg)
    }

    constructor ()
      ensures rows == [] && numbered == [] && Valid()
    {
      rows, numbered := [], [];
    }
  }

  ghost predicate Even(rows: seq<OrderRow>, numbered: seq<OrderRow>, counts: map<nat, nat>) {
    && Numbered(rows) && (forall leg :: Highest(numbered, leg) == CloseOrders(rows, leg))
    && forall leg :: leg in counts ==> counts[leg] == CloseOrders(rows, leg)
  }

  /** A close that is numbered and not written is what breaks it. */
  lemma {:induction false} EvenAfter(rows: seq<OrderRow>, numbered: seq<OrderRow>, counts: map<nat, nat>, leg: nat,
                                     closing: bool, number: nat, raises: bool)
    requires Even(rows, numbered, counts) && (closing ==> number == CloseOrders(rows, leg) + 1)
    ensures var rows' := if raises then rows else rows + [OrderRow(leg, closing, number)];
            var numbered' := if closing then numbered + [OrderRow(leg, closing, number)] else numbered;
            Even(rows', numbered', if closing then counts[leg := number] else counts) <==> !(raises && closing)
  {
    if !raises {
      CountMore(rows, OrderRow(leg, closing, number));
    }
    if closing {
      HighestOf(numbered, leg, number);
      if raises {
        assert Highest(numbered + [OrderRow(leg, true, number)], leg) != CloseOrders(rows, leg);
      }
    }
  }

  /** One venue over the table: a fresh one after every restart. */
  class DeskVenue {
    const table: OrderTable
    var closeCounts: map<nat, nat>

    /** The in-memory counter of a leg, read from the rows the first time. */
    function Counter(leg: nat): nat
      reads this, table
    {
      if leg in closeCounts then closeCounts[leg] else CloseOrders(table.rows, leg)
    }

    /** A counter is never behind the rows, nor ahead of what was numbered. */
    ghost predicate Valid()
      reads this, table
    {
      table.Valid() && forall leg :: leg in closeCounts ==>
          CloseOrders(table.rows, leg) <= closeCounts[leg] <= Highest(table.numbered, leg)
    }

    /** Every counter is its rows', and so is the highest number of each leg. */
    ghost predicate InStep()
      reads this, table
    {
      Even(table.rows, table.numbered, closeCounts)
    }

    constructor (table: OrderTable)
      requires table.Valid()
      ensures this.table == table && closeCounts == map[] && Valid()
    {
      this.table := table;
      closeCounts := map[];
    }

    /** The number of a close: the one after its counter. It was given to a close of the leg before exactly when
        the counter is below the highest ever given. */
    method NextClose(leg: nat) returns (number: nat)
      requires Valid()
      modifies this, table`numbered
      ensures Valid() && number == old(Counter(leg)) + 1
      ensures closeCounts == old(closeCounts)[leg := number]
      ensures table.numbered == old(table.numbered) + [OrderRow(leg, true, number)]
      ensures WasGiven(old(table.numbered), leg, number) <==> old(Counter(leg)) < Highest(old(table.numbered), leg)
    {
      number := Counter(leg) + 1;
      closeCounts := closeCounts[leg := number];
      GivenWhen(table.numbered, leg, number);
      Numbering(table.numbered, leg, number);
      table.numbered := table.numbered + [OrderRow(leg, true, number)];
    }

    /** One order. While no close of the venue raises before its row is written, no number is ever given twice;
        one that raises puts the venue out of step, and nothing else does. */
    method Send(leg: nat, attempt: nat, closing: bool, raises: bool) returns (number: nat)
      requires Valid()
      modifies this, table
      ensures Valid()
      ensures number == if closing then old(Counter(leg)) + 1 else attempt
      ensures table.rows == if raises then old(table.rows) else old(table.rows) + [OrderRow(leg, closing, number)]
      ensures table.numbered == if closing then old(table.numbered) + [OrderRow(leg, closing, number)]
          else old(table.numbered)
      ensures closing ==> (WasGiven(old(table.numbered), leg, number)
          <==> old(Counter(leg)) < Highest(old(table.numbered), leg))
      ensures old(InStep()) ==> InStep() == !(raises && closing)
      ensures old(InStep()) && closing ==> !WasGiven(old(table.numbered), leg, number)
    {
      ghost var rows, numbered, counts := table.rows, table.numbered, closeCounts;
      number := attempt;
      if closing {
        number := NextClose(leg);
      }
      if Even(rows, numbered, counts) {
        EvenAfter(rows, numbered, counts, leg, closing, number, raises);
      }
      if !raises {
        CountMore(rows, OrderRow(leg, closing, number));
        table.rows := table.rows + [OrderRow(leg, closing, number)];
      }
    }
  }

  lemma {:induction false} Numbering(numbered: seq<OrderRow>, leg: nat, number: nat)
    requires NoGaps(numbered) && number <= Highest(numbered, leg) + 1
    ensures NoGaps(numbered + [OrderRow(leg, true, number)])
    ensures forall l :: Highest(numbered + [OrderRow(leg, true, number)], l) >= Highest(numbered, l)
    ensures Highest(numbered + [OrderRow(leg, true, number)], leg) >= number
  {
    NoGapsMore(numbered, OrderRow(leg, true, number));
    HighestOf(numbered, leg, number);
  }

  lemma {:induction false} HighestOf(numbered: seq<OrderRow>, leg: nat, number: nat)
    ensures forall l :: Highest(numbered + [OrderRow(leg, true, number)], l)
                        == if l == leg && number > Highest(numbered, l) then number else Highest(numbered, l)
  {
    forall l ensures Highest(numbered + [OrderRow(leg, true, number)], l)
                     == if l == leg && number > Highest(numbered, l) then number else Highest(numbered, l) {
      HighestMore(numbered, OrderRow(leg, true, number), l);
    }
  }

  lemma {:induction false} GivenWhen(numbered: seq<OrderRow>, leg: nat, number: nat)
    requires NoGaps(numbered) && number >= 1
    ensures WasGiven(numbered, leg, number) <==> number <= Highest(numbered, leg)
  {
    if WasGiven(numbered, leg, number) {
      GivenBelow(numbered, leg, number);
    }
  }

  lemma {:induction false} CountMore(rows: seq<OrderRow>, o: OrderRow)
    ensures forall leg ::
              CloseOrders(rows + [o], leg) == CloseOrders(rows, leg) + if o.leg == leg && o.closing then 1 else 0
    ensures Numbered(rows) && (o.closing ==> o.number == CloseOrders(rows, o.leg) + 1) ==> Numbered(rows + [o])
  {
    var all := rows + [o];
    assert all[..|rows|] == rows;
    if Numbered(rows) && (o.closing ==> o.number == CloseOrders(rows, o.leg) + 1) {
      forall k | 0 <= k < |all| && all[k].closing ensures all[k].number == CloseOrders(all[..k], all[k].leg) + 1 {
        assert all[..k] == rows[..k];
      }
    }
  }

  /** The failing family: a close that raises, then a restart. The fresh venue gives the same number, and so
      the same id, to the gateway again. */
  method RestartAfterRaise(leg: nat, attempt: nat) returns (first: nat, again: nat)
    ensures first == again
  {
    var table := new OrderTable();
    var venue := new DeskVenue(table);
    first := venue.Send(leg, attempt, true, true);
    var restarted := new DeskVenue(table);
    again := restarted.Send(leg, attempt, true, false);
  }
}
