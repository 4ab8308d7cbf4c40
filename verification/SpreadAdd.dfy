/** A credit spread and its one add (`_enter_condor` and `_add_to_spread`,
    kite-momentum-rebalancer/app/fno_execute.py; `_raise_f3_add`, fno_monitor.py). Points and credits are
    whole paise a unit. */
module SpreadAdd {
  import opened Options
  import opened Money

  datatype Leg = Leg(role: string, quantity: int)

  /** An entry or add plan. `width` is its own column; `detail` is the free-form part that the fill reads. */
  datatype Plan = Plan(lots: nat, lotSize: nat, legs: seq<Leg>, width: int, detail: map<string, int>)

  datatype Spread = Spread(lots: nat, lotSize: nat, credit: int, maxLoss: Option<int>, legs: seq<Leg>)

  const WIDTH_POINTS := "width_points"

  /** `_dec(plan.detail.get("width_points")) or Decimal(0)`. */
  function DetailWidth(p: Plan): int {
    if WIDTH_POINTS in p.detail then p.detail[WIDTH_POINTS] else 0
  }

  function Quantity(p: Plan): nat {
    p.lots * p.lotSize
  }

  /** The position a filled entry opens. */
  function Opened(p: Plan, credit: int): Spread {
    var width := DetailWidth(p);
    Spread(p.lots, p.lotSize, credit,
           if width != 0 then Some((width - credit) * Quantity(p)) else None, p.legs)
  }

  function AveragedCredit(old_: int, oldUnits: nat, add: int, q: nat): int
    requires oldUnits + q > 0
  {
    Quantize((old_ * oldUnits + add * q) as real / (oldUnits + q) as real)
  }

  function AddLoss(p: Plan, credit: int): int {
    if DetailWidth(p) != 0 then (DetailWidth(p) - credit) * Quantity(p) else 0
  }

  /** What the plan's legs add to one role: by the last of them. */
  function AddedTo(legs: seq<Leg>, role: string): int {
    if legs == [] then 0
    else AddedTo(legs[..|legs| - 1], role) + if legs[|legs| - 1].role == role then legs[|legs| - 1].quantity else 0
  }

  predicate UniqueRoles(legs: seq<Leg>) {
    forall i, j :: 0 <= i < j < |legs| ==> legs[i].role != legs[j].role
  }

  /** The position after a filled add: its lots and average credit, its maximum loss, and each leg with what
      the plan adds to its role. */
  function Added(s: Spread, p: Plan, addCredit: int): Spread
    requires s.lots * s.lotSize + Quantity(p) > 0
  {
    Spread(s.lots + p.lots, s.lotSize, AveragedCredit(s.credit, s.lots * s.lotSize, addCredit, Quantity(p)),
           Some((if s.maxLoss.Some? then s.maxLoss.value else 0) + AddLoss(p, addCredit)),
           AddedLegs(s.legs, p.legs))
  }

  function AddedLegs(legs: seq<Leg>, more: seq<Leg>): seq<Leg> {
    seq(|legs|, i requires 0 <= i < |legs| => Leg(legs[i].role, legs[i].quantity + AddedTo(more, legs[i].role)))
  }

  class SpreadPosition {
    var lots: nat
    var lotSize: nat
    var credit: int
    var maxLoss: Option<int>
    var legs: seq<Leg>
    var added: bool

    ghost function Now(): Spread
      reads this
    {
      Spread(lots, lotSize, credit, maxLoss, legs)
    }

    constructor (p: Plan, credit0: int)
      ensures Now() == Opened(p, credit0) && !added
    {
      lots, lotSize, credit, legs, added := p.lots, p.lotSize, credit0, p.legs, false;
      maxLoss := if DetailWidth(p) != 0 then Some((DetailWidth(p) - credit0) * Quantity(p)) else None;
    }

    /** The filled add: each held leg of a plan leg's role grows by it, in place. */
    method Add(p: Plan, addCredit: int)
      requires UniqueRoles(legs) && lots * lotSize + Quantity(p) > 0
      modifies this
      ensures added && Now() == Added(old(Now()), p, addCredit)
    {
      credit := AveragedCredit(credit, lots * lotSize, addCredit, p.lots * p.lotSize);
      GrowLegs(p.legs);
      maxLoss := Some((if maxLoss.Some? then maxLoss.value else 0) + AddLoss(p, addCredit));
      lots := lots + p.lots;
      added := true;
    }

    method GrowLegs(more: seq<Leg>)
      requires UniqueRoles(legs)
      modifies `legs
      ensures legs == AddedLegs(old(legs), more)
    {
      ghost var was := legs;
      for j := 0 to |more|
        invariant |legs| == |was| && UniqueRoles(legs)
        invariant forall i :: 0 <= i < |legs| ==>
                    legs[i] == Leg(was[i].role, was[i].quantity + AddedTo(more[..j], was[i].role))
      {
        assert more[..j + 1][..j] == more[..j];
        var k := Find(more[j].role);
        if k.Some? {
          legs := legs[k.value := legs[k.value].(quantity := legs[k.value].quantity + more[j].quantity)];
        }
      }
      assert more[..|more|] == more;
    }

    method Find(role: string) returns (k: Option<nat>)
      requires UniqueRoles(legs)
      ensures k.Some? ==> k.value < |legs| && legs[k.value].role == role
      ensures k.None? ==> forall i :: 0 <= i < |legs| ==> legs[i].role != role
    {
      for i := 0 to |legs|
        invariant forall j :: 0 <= j < i ==> legs[j].role != role
      {
        if legs[i].role == role {
          return Some(i);
        }
      }
      return None;
    }
  }

  // ----- the legs -----

  /** Every leg holds the whole spread. */
  predicate Even(legs: seq<Leg>, units: int) {
    forall i :: 0 <= i < |legs| ==> legs[i].quantity == units
  }

  /** The plan has one leg for each role of the spread, each of its whole quantity. */
  predicate Matches(p: Plan, s: Spread) {
    && p.lotSize == s.lotSize && UniqueRoles(p.legs) && Even(p.legs, Quantity(p))
    && forall i :: 0 <= i < |s.legs| ==> HasRole(p.legs, s.legs[i].role)
  }

  predicate HasRole(legs: seq<Leg>, role: string) {
    exists j :: 0 <= j < |legs| && legs[j].role == role
  }

  lemma {:induction false} AddedOnce(legs: seq<Leg>, role: string, units: int)
    requires UniqueRoles(legs) && Even(legs, units)
    ensures AddedTo(legs, role) == if HasRole(legs, role) then units else 0
  {
    if legs != [] {
      var front, last := legs[..|legs| - 1], legs[|legs| - 1];
      AddedOnce(front, role, units);
      if HasRole(front, role) {
        var j :| 0 <= j < |front| && front[j].role == role;
        assert legs[j].role == role;
      }
      if last.role == role {
        assert legs[|legs| - 1].role == role;
      }
    }
  }

  /** Every leg's quantity stays lots times lot size. */
  lemma LegsStayEven(s: Spread, p: Plan, addCredit: int)
    requires s.lots * s.lotSize + Quantity(p) > 0 && Matches(p, s) && Even(s.legs, s.lots * s.lotSize)
    ensures var after := Added(s, p, addCredit); Even(after.legs, after.lots * after.lotSize)
  {
    var after := Added(s, p, addCredit);
    forall i | 0 <= i < |after.legs| ensures after.legs[i].quantity == after.lots * after.lotSize {
      AddedOnce(p.legs, s.legs[i].role, Quantity(p));
    }
  }

  // ----- the credit -----

  /** What the spread has taken in: the entry's credit and the add's, each times its units. */
  function Taken(s: Spread, p: Plan, addCredit: int): int {
    s.credit * (s.lots * s.lotSize) + addCredit * Quantity(p)
  }

  /** At most half a paisa for each unit. */
  predicate HalfAUnit(x: int, units: int) {
    -units <= 2 * x <= units
  }

  /** The average times the units is the credit taken, to within half a paisa a unit. */
  lemma CreditKept(s: Spread, p: Plan, addCredit: int)
    requires s.lots * s.lotSize + Quantity(p) > 0 && p.lotSize == s.lotSize
    ensures var after := Added(s, p, addCredit);
            var units := after.lots * after.lotSize;
            HalfAUnit(after.credit * units - Taken(s, p, addCredit), units)
  {
    var oldUnits, q := s.lots * s.lotSize, Quantity(p);
    assert (s.lots + p.lots) * s.lotSize == oldUnits + q;
    AverageOf(Taken(s, p, addCredit), oldUnits + q);
  }

  lemma AverageOf(total: int, units: nat)
    requires units > 0
    ensures HalfAUnit(Quantize(total as real / units as real) * units - total, units)
  {
    RoundedAverage(total as real, units);
  }

  // ----- the maximum loss -----

  /** The recorded maximum loss is the width on every unit less the credit taken. */
  predicate LossIs(maxLoss: Option<int>, width: int, units: int, taken: int) {
    maxLoss == Some(width * units - taken)
  }

  lemma {:induction false} OpenedLoss(p: Plan, credit: int)
    requires DetailWidth(p) != 0
    ensures var s := Opened(p, credit);
            LossIs(s.maxLoss, DetailWidth(p), s.lots * s.lotSize, credit * (s.lots * s.lotSize))
  {
    var q := Quantity(p);
    assert (DetailWidth(p) - credit) * q == DetailWidth(p) * q - credit * q;
  }

  /** After an add to a spread of width `w`, the law holds again exactly when the plan's detail gives that
      width, or, giving none, the add had nothing to lose. */
  lemma AddLossLaw(s: Spread, p: Plan, addCredit: int, w: int)
    requires p.lotSize == s.lotSize && Quantity(p) > 0
    requires LossIs(s.maxLoss, w, s.lots * s.lotSize, s.credit * (s.lots * s.lotSize))
    ensures var after := Added(s, p, addCredit);
            LossIs(after.maxLoss, w, after.lots * after.lotSize, Taken(s, p, addCredit))
            <==> if DetailWidth(p) != 0 then DetailWidth(p) == w else addCredit == w
  {
    var units, q, v := s.lots * s.lotSize, Quantity(p), if DetailWidth(p) != 0 then DetailWidth(p) else addCredit;
    var after := Added(s, p, addCredit);
    assert after.lots * after.lotSize == units + q by {
      LotsAdd(s.lots, p.lots, s.lotSize);
    }
    assert after.maxLoss == Some(s.maxLoss.value + AddLoss(p, addCredit));
    AddLossIs(p, addCredit, v);
    LossOfSum(s.maxLoss.value, AddLoss(p, addCredit), w, units, q, s.credit * units, addCredit, v);
  }

  lemma AddLossIs(p: Plan, addCredit: int, v: int)
    requires v == if DetailWidth(p) != 0 then DetailWidth(p) else addCredit
    ensures AddLoss(p, addCredit) == (v - addCredit) * Quantity(p)
  {
  }

  lemma LossOfSum(loss: int, add: int, w: int, u: nat, q: nat, taken: int, c: int, v: int)
    requires q > 0 && loss == w * u - taken && add == (v - c) * q
    ensures loss + add == w * (u + q) - (taken + c * q) <==> v == w
  {
    LossArithmetic(w, u, q, taken, c, v);
  }

  lemma LotsAdd(a: nat, b: nat, size: nat)
    ensures (a + b) * size == a * size + b * size
  {
  }

  /** Adding `(v - c) * q` to what `u` units lose is what `u + q` lose exactly when `v` is the width. */
  lemma LossArithmetic(w: int, u: nat, q: nat, taken: int, c: int, v: int)
    requires q > 0
    ensures w * u - taken + (v - c) * q == w * (u + q) - (taken + c * q) <==> v == w
  {
    TimesDifference(v, c, q);
    TimesSum(w, u, q);
    TimesCancels(v, w, q);
  }

  lemma TimesDifference(v: int, c: int, q: int)
    ensures (v - c) * q == v * q - c * q
  {
  }

  lemma TimesSum(w: int, u: int, q: int)
    ensures w * (u + q) == w * u + w * q
  {
  }

  lemma TimesCancels(v: int, w: int, q: int)
    requires q > 0
    ensures v * q == w * q <==> v == w
  {
    if v < w {
      TimesRises(v, w, q);
    } else if w < v {
      TimesRises(w, v, q);
    }
  }

  lemma TimesRises(v: int, w: int, q: int)
    requires v < w && q > 0
    ensures v * q < w * q
  {
  }

  /** `_raise_f3_add`: the width goes to the plan's column; the detail has the position, the direction and
      the level, and no width. */
  function RaisedAdd(s: Spread, width: int, lots: nat, position: int, level: int): Plan {
    var q := lots * s.lotSize;
    Plan(lots, s.lotSize, seq(|s.legs|, i requires 0 <= i < |s.legs| => s.legs[i].(quantity := q)), width,
         map["position_id" := position, "level" := level])
  }

  /** An add the monitor raises therefore leaves the recorded maximum loss where it was, short of the law by
      the add's own: `(w - credit) * units`. The legs and the credit are as they should be. */
  lemma MonitorAddShort(s: Spread, width: int, lots: nat, position: int, level: int, addCredit: int)
    requires s.lotSize > 0 && lots > 0 && UniqueRoles(s.legs)
    requires LossIs(s.maxLoss, width, s.lots * s.lotSize, s.credit * (s.lots * s.lotSize))
    ensures var p := RaisedAdd(s, width, lots, position, level);
            && Quantity(p) > 0 && Matches(p, s)
            && var after := Added(s, p, addCredit);
               after.maxLoss == s.maxLoss
               && (width * (after.lots * after.lotSize) - Taken(s, p, addCredit)) - after.maxLoss.value
                  == (width - addCredit) * Quantity(p)
  {
    var p := RaisedAdd(s, width, lots, position, level);
    assert WIDTH_POINTS !in p.detail by {
      assert |WIDTH_POINTS| == 12 && |"position_id"| == 11 && |"level"| == 5;
    }
    forall i | 0 <= i < |s.legs| ensures HasRole(p.legs, s.legs[i].role) {
      assert p.legs[i].role == s.legs[i].role;
    }
    var units, q := s.lots * s.lotSize, Quantity(p);
    assert q > 0;
    assert (s.lots + lots) * s.lotSize == units + q;
    assert width * (units + q) == width * units + width * q;
    assert (width - addCredit) * q == width * q - addCredit * q;
  }
}
