/** The credit recorded when a structure opens (`_enter_condor`, kite-momentum-rebalancer/app/fno_execute.py): from
    each leg's average price to one figure a unit. It is held against the cash that the entry's own rows moved. */
module EntryCredit {
  import opened Money
  import opened Covered
  import opened Ladder
  import opened OptionExecutor

  // ----- the rows of one leg -----

  function UnitsOf(fills: seq<Fill>, role: LegRole): nat {
    if fills == [] then 0
    else
      var f := fills[|fills| - 1];
      UnitsOf(fills[..|fills| - 1], role) + if f.role == role then f.quantity else 0
  }

  function CostOf(fills: seq<Fill>, role: LegRole): int {
    if fills == [] then 0
    else
      var f := fills[|fills| - 1];
      CostOf(fills[..|fills| - 1], role) + if f.role == role then f.cost else 0
  }

  /** `Result.avg_price`, or zero. */
  function AvgPrice(fills: seq<Fill>, role: LegRole): real {
    var units := UnitsOf(fills, role);
    if units == 0 then 0.0 else Each(CostOf(fills, role), units)
  }

  function Each(cost: int, units: nat): real
    requires units > 0
  {
    cost as real / units as real
  }

  /** The credit a unit: the shorts' averages less the longs', as money. */
  function Credit(fills: seq<Fill>): int {
    Quantize(AvgPrice(fills, ShortPut) + AvgPrice(fills, ShortCall)
             - AvgPrice(fills, LongPut) - AvgPrice(fills, LongCall))
  }

  /** What the rows brought in: sales less purchases. */
  function Cash(fills: seq<Fill>): int {
    if fills == [] then 0
    else
      var f := fills[|fills| - 1];
      Cash(fills[..|fills| - 1]) + if f.side == Sell then f.cost else -f.cost
  }

  /** Each row of an entry's opening orders buys a long or sells a short. */
  predicate Opens(fills: seq<Fill>) {
    forall k :: 0 <= k < |fills| ==> fills[k].side == (if fills[k].role.IsLong() then Buy else Sell)
  }

  lemma {:induction false} BookedOpens(log: seq<Order>, fills: seq<Fill>)
    requires Booked(log, fills) && OnlyOpens(log, [])
    ensures Opens(fills)
    decreases |log|
  {
    if log != [] {
      var o, front := log[|log| - 1], log[..|log| - 1];
      assert OnlyOpens(front, []) by {
        assert front[..0] == [];
      }
      assert !o.closing && Executed(o);
      BookedOpens(front, if o.row.None? then fills else fills[..|fills| - 1]);
    }
  }

  lemma {:induction false} CashByLeg(fills: seq<Fill>)
    requires Opens(fills)
    ensures Cash(fills) == CostOf(fills, ShortPut) + CostOf(fills, ShortCall)
                         - CostOf(fills, LongPut) - CostOf(fills, LongCall)
  {
    if fills != [] {
      CashByLeg(fills[..|fills| - 1]);
    }
  }

  lemma {:induction false} NetIsUnits(fills: seq<Fill>, role: LegRole)
    requires Opens(fills)
    ensures Net(NONE, fills).Get(role) == Units(SideOf(role, false), UnitsOf(fills, role))
  {
    if fills != [] {
      NetIsUnits(fills[..|fills| - 1], role);
    }
  }

  /** Rows that fill nothing of a leg cost nothing of it. */
  predicate RowsFill(fills: seq<Fill>) {
    forall k :: 0 <= k < |fills| ==> fills[k].quantity > 0
  }

  lemma {:induction false} BookedFill(log: seq<Order>, fills: seq<Fill>)
    requires Booked(log, fills)
    ensures RowsFill(fills)
    decreases |log|
  {
    if log != [] {
      var o := log[|log| - 1];
      assert Executed(o);
      BookedFill(log[..|log| - 1], if o.row.None? then fills else fills[..|fills| - 1]);
    }
  }

  lemma {:induction false} NoUnitsNoCost(fills: seq<Fill>, role: LegRole)
    requires RowsFill(fills) && UnitsOf(fills, role) == 0
    ensures CostOf(fills, role) == 0
  {
    if fills != [] {
      NoUnitsNoCost(fills[..|fills| - 1], role);
    }
  }

  // ----- the credit -----

  lemma LegAverage(fills: seq<Fill>, role: LegRole, q: nat)
    requires RowsFill(fills) && q > 0 && (UnitsOf(fills, role) == q || UnitsOf(fills, role) == 0)
    ensures AvgPrice(fills, role) == Each(CostOf(fills, role), q)
  {
    if UnitsOf(fills, role) == 0 {
      NoUnitsNoCost(fills, role);
      EachNothing(q);
    }
  }

  lemma EachNothing(q: nat)
    requires q > 0
    ensures Each(0, q) == 0.0
  {
  }

  lemma EachSum(a: int, b: int, c: int, d: int, q: nat)
    requires q > 0
    ensures Each(a, q) + Each(b, q) - Each(c, q) - Each(d, q) == Each(a + b - c - d, q)
  {
  }

  /** At most half a paisa a unit. */
  predicate Within(x: int, units: int) {
    -units <= 2 * x <= units
  }

  /** The rows' net is the position `p`, longs positive and shorts negative. */
  ghost predicate Holds(fills: seq<Fill>, p: Legs) {
    match p
    case Legs(lp, lc, sp, sc) =>
      var n := Net(NONE, fills);
      n.longPut == lp && n.longCall == lc && n.shortPut + sp == 0 && n.shortCall + sc == 0
  }

  lemma UnitsHeld(fills: seq<Fill>, p: Legs, role: LegRole)
    requires Opens(fills) && Holds(fills, p)
    ensures UnitsOf(fills, role) == p.Get(role)
  {
    NetIsUnits(fills, role);
  }

  lemma FullLeg(roles: set<LegRole>, q: nat, role: LegRole)
    ensures FullUpTo(roles, q, 4).Get(role) == if role in roles then q else 0
  {
  }

  lemma LegsAverage(fills: seq<Fill>, q: nat)
    requires q > 0 && Opens(fills) && RowsFill(fills)
    requires forall role :: UnitsOf(fills, role) == q || UnitsOf(fills, role) == 0
    ensures Credit(fills) == Quantize(Each(Cash(fills), q))
  {
    LegAverage(fills, ShortPut, q);
    LegAverage(fills, ShortCall, q);
    LegAverage(fills, LongPut, q);
    LegAverage(fills, LongCall, q);
    CashByLeg(fills);
    EachSum(CostOf(fills, ShortPut), CostOf(fills, ShortCall), CostOf(fills, LongPut), CostOf(fills, LongCall), q);
  }

  lemma CreditRounds(cash: int, q: nat)
    requires q > 0
    ensures Within(Whole(Quantize(Each(cash, q)), q) - cash, q)
  {
    RoundedAverage(cash as real, q);
  }

  /** On every unit, the credit is the cash that the opening rows took in, to within half a paisa; and those rows
      fill each leg of the structure in full. */
  lemma {:induction false} CreditIsCash(log: seq<Order>, fills: seq<Fill>, roles: set<LegRole>, q: nat)
    requires q > 0 && Booked(log, fills) && OnlyOpens(log, [])
    requires Holds(fills, FullUpTo(roles, q, 4))
    ensures Opens(fills) && forall role :: UnitsOf(fills, role) == if role in roles then q else 0
    ensures Within(Whole(Credit(fills), q) - Cash(fills), q)
  {
    BookedOpens(log, fills);
    BookedFill(log, fills);
    forall role ensures UnitsOf(fills, role) == if role in roles then q else 0 {
      UnitsHeld(fills, FullUpTo(roles, q, 4), role);
      FullLeg(roles, q, role);
    }
    LegsAverage(fills, q);
    CreditRounds(Cash(fills), q);
  }

  /** An entry on a fresh venue, and the credit it records. */
  method Enter(st: Structure, roles: set<LegRole>, quantity: nat, terms: Terms)
    returns (outcome: Outcome, rows: seq<Fill>, credit: int)
    requires st.Protected() && NoNakedShort(roles) && quantity > 0
    ensures outcome == Open ==> Within(Whole(credit, quantity) - Cash(rows), quantity)
    ensures outcome == Open ==> Opens(rows)
    ensures outcome == Open ==> forall role :: UnitsOf(rows, role) == if role in roles then quantity else 0
  {
    var venue, result := FreshVenue(st);
    outcome := RunEntry(venue, result, roles, quantity, terms);
    rows, credit := venue.fills, 0;
    if outcome == Open {
      credit := Credit(rows);
      EntryRows(venue, result, roles, quantity);
    }
  }

  method FreshVenue(st: Structure) returns (venue: OptionVenue, result: Result)
    requires st.Protected()
    ensures fresh(venue) && fresh(result) && InStep(venue, result)
    ensures venue.log == [] && venue.start == NONE && result.position == NONE
  {
    venue := new OptionVenue(st, NONE);
    result := new Result(NONE);
  }

  lemma EntryRows(venue: OptionVenue, result: Result, roles: set<LegRole>, q: nat)
    requires q > 0 && InStep(venue, result) && venue.start == NONE && OnlyOpens(venue.log, [])
    requires result.position == FullUpTo(roles, q, 4)
    ensures Opens(venue.fills) && forall role :: UnitsOf(venue.fills, role) == if role in roles then q else 0
    ensures Within(Whole(Credit(venue.fills), q) - Cash(venue.fills), q)
  {
    HeldRows(venue, result);
    CreditIsCash(venue.log, venue.fills, roles, q);
  }

  lemma HeldRows(venue: OptionVenue, result: Result)
    requires InStep(venue, result) && venue.start == NONE
    ensures Holds(venue.fills, result.position) && Booked(venue.log, venue.fills)
  {
  }
}
