/** Two exits of one credit spread at once (kite-momentum-rebalancer/app/fno_execute.py, `execute_exit`).

    Each pass reads the fill table once, believes it holds that, and closes it by its own orders; both
    write their fills to the one table. A confirmed click and the monitor's pass can overlap so. What
    the table then holds is worked out here for every pair of passes and every interleaving of their
    rows. */
module SpreadExits {
  import opened Covered
  import opened Ladder
  import opened OptionExecutor

  /** `t` is the rows of `a` and of `b`, each in its own order. */
  predicate IsMerge(t: seq<Fill>, a: seq<Fill>, b: seq<Fill>)
    decreases |t|
  {
    if t == [] then a == [] && b == []
    else
      || (a != [] && a[|a| - 1] == t[|t| - 1] && IsMerge(t[..|t| - 1], a[..|a| - 1], b))
      || (b != [] && b[|b| - 1] == t[|t| - 1] && IsMerge(t[..|t| - 1], a, b[..|b| - 1]))
  }

  /** At any moment each pass has written a prefix of its rows. */
  lemma {:induction false} MergeSoFar(t: seq<Fill>, a: seq<Fill>, b: seq<Fill>, k: nat) returns (i: nat, j: nat)
    requires IsMerge(t, a, b) && k <= |t|
    ensures i <= |a| && j <= |b| && IsMerge(t[..k], a[..i], b[..j])
    decreases |t|
  {
    if k == |t| {
      i, j := |a|, |b|;
      assert t[..k] == t && a[..i] == a && b[..j] == b;
    } else {
      var n := |t| - 1;
      assert t[..n][..k] == t[..k];
      if a != [] && a[|a| - 1] == t[n] && IsMerge(t[..n], a[..|a| - 1], b) {
        i, j := MergeSoFar(t[..n], a[..|a| - 1], b, k);
        assert a[..|a| - 1][..i] == a[..i];
      } else {
        i, j := MergeSoFar(t[..n], a, b[..|b| - 1], k);
        assert b[..|b| - 1][..j] == b[..j];
      }
    }
  }

  /** Units of one leg an exit's rows close. */
  function Closed(fills: seq<Fill>, role: LegRole): nat {
    if fills == [] then 0
    else
      var f := fills[|fills| - 1];
      Closed(fills[..|fills| - 1], role) + if f.role == role then f.quantity else 0
  }

  lemma {:induction false} MergeCloses(t: seq<Fill>, a: seq<Fill>, b: seq<Fill>, role: LegRole)
    requires IsMerge(t, a, b)
    ensures Closed(t, role) == Closed(a, role) + Closed(b, role)
    decreases |t|
  {
    if t != [] {
      if a != [] && a[|a| - 1] == t[|t| - 1] && IsMerge(t[..|t| - 1], a[..|a| - 1], b) {
        MergeCloses(t[..|t| - 1], a[..|a| - 1], b, role);
      } else {
        MergeCloses(t[..|t| - 1], a, b[..|b| - 1], role);
      }
    }
  }

  /** Rows that close, whatever they close. */
  predicate AllClose(fills: seq<Fill>) {
    forall f :: f in fills ==> f.side == SideOf(f.role, true)
  }

  lemma {:induction false} ExitCloses(p0: Legs, fills: seq<Fill>, p: Legs, role: LegRole)
    requires ExitFills(p0, fills, p)
    ensures AllClose(fills) && p.Get(role) == p0.Get(role) - Closed(fills, role)
    decreases |fills|
  {
    if fills != [] {
      var n := |fills| - 1;
      var f := fills[n];
      ExitCloses(p0, fills[..n], p.Set(f.role, p.Get(f.role) + f.quantity), role);
      assert forall g :: g in fills ==> g in fills[..n] || g == f;
    }
  }

  lemma {:induction false} MergeOfCloses(t: seq<Fill>, a: seq<Fill>, b: seq<Fill>)
    requires IsMerge(t, a, b) && AllClose(a) && AllClose(b)
    ensures AllClose(t)
    decreases |t|
  {
    if t != [] {
      var n := |t| - 1;
      if a != [] && a[|a| - 1] == t[n] && IsMerge(t[..n], a[..|a| - 1], b) {
        MergeOfCloses(t[..n], a[..|a| - 1], b);
      } else {
        MergeOfCloses(t[..n], a, b[..|b| - 1]);
      }
      assert forall g :: g in t ==> g in t[..n] || g == t[n];
    }
  }

  /** What the table holds after rows that all close, a leg's own direction positive. */
  lemma {:induction false} TableAfter(p0: Legs, t: seq<Fill>, role: LegRole)
    requires AllClose(t)
    ensures Net(p0.Signed(), t).Signed().Get(role) == p0.Get(role) - Closed(t, role)
    decreases |t|
  {
    if t != [] {
      assert t[|t| - 1] in t && forall f :: f in t[..|t| - 1] ==> f in t;
      TableAfter(p0, t[..|t| - 1], role);
    }
  }

  /** The table's position, for two exits that started from `p0` and came to `p` and `q`. */
  function Joined(p0: Legs, p: Legs, q: Legs): Legs {
    Legs(p.longPut + q.longPut - p0.longPut, p.longCall + q.longCall - p0.longCall,
         p.shortPut + q.shortPut - p0.shortPut, p.shortCall + q.shortCall - p0.shortCall)
  }

  /** Two passes of an exit from one reading of the table, and the rows they left there. */
  ghost predicate TwoExits(p0: Legs, a: seq<Fill>, p: Legs, b: seq<Fill>, q: Legs, t: seq<Fill>) {
    match p0
    case Legs(_, _, _, _) =>
      p0.NonNegative() && p0.NeverNaked() && ExitFills(p0, a, p) && ExitFills(p0, b, q) && IsMerge(t, a, b)
  }

  lemma {:induction false} JoinedLeg(p0: Legs, a: seq<Fill>, p: Legs, b: seq<Fill>, q: Legs, t: seq<Fill>,
                                     role: LegRole)
    requires TwoExits(p0, a, p, b, q, t)
    ensures Net(p0.Signed(), t).Signed().Get(role) == p.Get(role) + q.Get(role) - p0.Get(role)
    ensures Net(p0.Signed(), t).Signed().Get(role) == p0.Get(role) - (Closed(a, role) + Closed(b, role))
  {
    ExitCloses(p0, a, p, role);
    ExitCloses(p0, b, q, role);
    MergeOfCloses(t, a, b);
    MergeCloses(t, a, b, role);
    TableAfter(p0, t, role);
  }

  lemma {:induction false} JoinedTable(p0: Legs, a: seq<Fill>, p: Legs, b: seq<Fill>, q: Legs, t: seq<Fill>)
    requires TwoExits(p0, a, p, b, q, t)
    ensures Net(p0.Signed(), t).Signed() == Joined(p0, p, q)
  {
    JoinedLeg(p0, a, p, b, q, t, LongPut);
    JoinedLeg(p0, a, p, b, q, t, LongCall);
    JoinedLeg(p0, a, p, b, q, t, ShortPut);
    JoinedLeg(p0, a, p, b, q, t, ShortCall);
  }

  /** The leg of the table is on the other side of flat. */
  ghost predicate Crossed(p0: Legs, t: seq<Fill>, role: LegRole) {
    Net(p0.Signed(), t).Signed().Get(role) < 0
  }

  /** A leg crosses zero exactly when the two passes together closed more of it than was read. */
  lemma {:induction false} CrossesWhen(p0: Legs, a: seq<Fill>, p: Legs, b: seq<Fill>, q: Legs, t: seq<Fill>,
                                       role: LegRole)
    requires TwoExits(p0, a, p, b, q, t)
    ensures Crossed(p0, t, role) <==> Closed(a, role) + Closed(b, role) > p0.Get(role)
  {
    JoinedLeg(p0, a, p, b, q, t, role);
  }

  lemma {:induction false} ReversedWhen(p0: Legs, p: Legs, q: Legs, table: Legs)
    requires p.NonNegative() && q.NonNegative() && table.Signed() == Joined(p0, p, q)
    ensures p.Flat() && q.Flat() <==> table == Legs(-p0.longPut, -p0.longCall, p0.shortPut, p0.shortCall)
  {
  }

  /** Both passes report flat exactly when the table holds what was read, reversed. */
  lemma {:induction false} BothFlatIsReversed(p0: Legs, a: seq<Fill>, p: Legs, b: seq<Fill>, q: Legs, t: seq<Fill>)
    requires TwoExits(p0, a, p, b, q, t)
    ensures p.Flat() && q.Flat() <==> Net(p0.Signed(), t) == Legs(-p0.longPut, -p0.longCall, p0.shortPut, p0.shortCall)
  {
    var table := Net(p0.Signed(), t);
    JoinedTable(p0, a, p, b, q, t);
    ExitKeeps(p0, a, p);
    ExitKeeps(p0, b, q);
    ReversedWhen(p0, p, q, table);
  }

  lemma {:induction false} LegWhenFlat(p0: Legs, a: seq<Fill>, p: Legs, b: seq<Fill>, q: Legs, t: seq<Fill>,
                                       role: LegRole)
    requires TwoExits(p0, a, p, b, q, t) && p.Get(role) == 0
    ensures Net(p0.Signed(), t).Get(role) == if role.IsLong() then 0 - Closed(b, role) else Closed(b, role)
  {
    JoinedLeg(p0, a, p, b, q, t, role);
    ExitCloses(p0, a, p, role);
    SignedLeg(Net(p0.Signed(), t), role);
  }

  lemma SignedLeg(table: Legs, role: LegRole)
    ensures table.Signed().Get(role) == if role.IsLong() then table.Get(role) else 0 - table.Get(role)
  {
  }

  /** The other pass filled nothing. */
  ghost predicate Nothing(b: seq<Fill>) {
    forall role :: Closed(b, role) == 0
  }

  lemma FlatByLegs(p: Legs)
    requires forall role :: p.Get(role) == 0
    ensures p.Flat()
  {
    assert p.Get(LongPut) == p.Get(LongCall) == p.Get(ShortPut) == p.Get(ShortCall) == 0;
  }

  lemma FlatLeg(p: Legs, role: LegRole)
    requires p.Flat()
    ensures p.Get(role) == 0
  {
  }

  lemma {:induction false} FlatIfNothing(p0: Legs, a: seq<Fill>, p: Legs, b: seq<Fill>, q: Legs, t: seq<Fill>)
    requires TwoExits(p0, a, p, b, q, t) && p.Flat() && Nothing(b)
    ensures Net(p0.Signed(), t).Flat()
  {
    forall role ensures Net(p0.Signed(), t).Get(role) == 0 {
      FlatLeg(p, role);
      LegWhenFlat(p0, a, p, b, q, t, role);
      assert Closed(b, role) == 0;
    }
    FlatByLegs(Net(p0.Signed(), t));
  }

  lemma {:induction false} NothingIfFlat(p0: Legs, a: seq<Fill>, p: Legs, b: seq<Fill>, q: Legs, t: seq<Fill>,
                                         role: LegRole)
    requires TwoExits(p0, a, p, b, q, t) && p.Flat() && Net(p0.Signed(), t).Flat()
    ensures Closed(b, role) == 0
  {
    FlatLeg(p, role);
    FlatLeg(Net(p0.Signed(), t), role);
    LegWhenFlat(p0, a, p, b, q, t, role);
  }

  /** A pass's report of flat is true of the table exactly when the other pass filled nothing. */
  lemma {:induction false} FlatIsTrueWhen(p0: Legs, a: seq<Fill>, p: Legs, b: seq<Fill>, q: Legs, t: seq<Fill>)
    requires TwoExits(p0, a, p, b, q, t) && p.Flat()
    ensures Net(p0.Signed(), t).Flat() <==> Nothing(b)
  {
    if Net(p0.Signed(), t).Flat() {
      forall role ensures Closed(b, role) == 0 {
        NothingIfFlat(p0, a, p, b, q, t, role);
      }
    }
    if Nothing(b) {
      FlatIfNothing(p0, a, p, b, q, t);
    }
  }

  // ----- the covered rule over the table -----

  /** Whatever its signs, a protected structure's book is covered exactly when on each side the long is not
      below zero and the short is within it. */
  lemma {:induction false} CoveredWhen(st: Structure, q: Legs)
    requires st.Protected()
    ensures IsCovered(st.Filled(q.Signed()))
            <==> q.longCall >= 0 && q.shortCall <= q.longCall && q.longPut >= 0 && q.shortPut <= q.longPut
  {
    var book := st.Filled(q.Signed());
    var calls, puts := Side(st.underlying, st.expiry, CE), Side(st.underlying, st.expiry, PE);
    BeyondFour(book, calls, st.strikes.longCall);
    BeyondFour(book, calls, st.strikes.shortCall);
    BeyondFour(book, puts, st.strikes.longPut);
    BeyondFour(book, puts, st.strikes.shortPut);
    if IsCovered(book) {
      assert SideIsCovered(book, calls) && SideIsCovered(book, puts);
      assert Beyond(book, calls, st.strikes.longCall) >= 0 && Beyond(book, calls, st.strikes.shortCall) >= 0;
      assert Beyond(book, puts, st.strikes.longPut) >= 0 && Beyond(book, puts, st.strikes.shortPut) >= 0;
    } else {
      var side, x := NotCovered(book);
      BeyondFour(book, side, x);
    }
  }

  lemma NotCovered(book: seq<Row>) returns (side: Side, x: int)
    requires !IsCovered(book)
    ensures Beyond(book, side, x) < 0
  {
    side :| !SideIsCovered(book, side);
    x :| Beyond(book, side, x) < 0;
  }

  /** Two exits keep each short within its long for as long as the long is not oversold: a pass sells a long
      only after its own rows have bought the whole short back. */
  lemma {:induction false} ShortsWithin(p0: Legs, p: Legs, q: Legs)
    requires p0.NonNegative() && p0.NeverNaked() && Exiting(p0, p) && Exiting(p0, q)
    ensures Joined(p0, p, q).longPut >= 0 ==> Joined(p0, p, q).shortPut <= Joined(p0, p, q).longPut
    ensures Joined(p0, p, q).longCall >= 0 ==> Joined(p0, p, q).shortCall <= Joined(p0, p, q).longCall
  {
  }

  /** The table's book is covered exactly while neither long is oversold. */
  lemma {:induction false} TableCoveredWhen(st: Structure, p0: Legs, a: seq<Fill>, p: Legs, b: seq<Fill>, q: Legs,
                                            t: seq<Fill>)
    requires st.Protected() && TwoExits(p0, a, p, b, q, t)
    ensures IsCovered(st.Filled(Net(p0.Signed(), t)))
            <==> (Closed(a, LongPut) + Closed(b, LongPut) <= p0.longPut
                  && Closed(a, LongCall) + Closed(b, LongCall) <= p0.longCall)
  {
    JoinedTable(p0, a, p, b, q, t);
    JoinedLeg(p0, a, p, b, q, t, LongPut);
    JoinedLeg(p0, a, p, b, q, t, LongCall);
    ExitKeeps(p0, a, p);
    ExitKeeps(p0, b, q);
    ShortsWithin(p0, p, q);
    var table := Joined(p0, p, q);
    SignedTwice(Net(p0.Signed(), t));
    CoveredWhen(st, table);
  }

  /** An exit stopped anywhere is an exit, and what follows is one from there. */
  lemma {:induction false} ExitSplits(p0: Legs, a: seq<Fill>, q: Legs, i: nat) returns (p: Legs)
    requires ExitFills(p0, a, q) && i <= |a|
    ensures ExitFills(p0, a[..i], p) && ExitFills(p, a[i..], q)
    decreases |a|
  {
    if i == |a| {
      p := q;
      assert a[..i] == a && a[i..] == [];
    } else {
      var n := |a| - 1;
      var f := a[n];
      p := ExitSplits(p0, a[..n], q.Set(f.role, q.Get(f.role) + f.quantity), i);
      assert a[..n][..i] == a[..i] && a[i..][..n - i] == a[..n][i..] && a[i..][n - i] == f;
    }
  }

  lemma {:induction false} ClosedGrows(a: seq<Fill>, i: nat, role: LegRole)
    requires i <= |a|
    ensures Closed(a[..i], role) <= Closed(a, role)
    decreases |a|
  {
    if i < |a| {
      ClosedGrows(a[..|a| - 1], i, role);
      assert a[..|a| - 1][..i] == a[..i];
    } else {
      assert a[..i] == a;
    }
  }

  /** And it is covered at every moment of the two passes exactly when it is covered at the end. */
  lemma {:induction false} CoveredThroughout(st: Structure, p0: Legs, a: seq<Fill>, p: Legs, b: seq<Fill>, q: Legs,
                                             t: seq<Fill>)
    requires st.Protected() && TwoExits(p0, a, p, b, q, t)
    ensures (forall k :: 0 <= k <= |t| ==> IsCovered(st.Filled(Net(p0.Signed(), t[..k]))))
            <==> (Closed(a, LongPut) + Closed(b, LongPut) <= p0.longPut
                  && Closed(a, LongCall) + Closed(b, LongCall) <= p0.longCall)
  {
    TableCoveredWhen(st, p0, a, p, b, q, t);
    assert t[..|t|] == t;
    if IsCovered(st.Filled(Net(p0.Signed(), t))) {
      forall k | 0 <= k <= |t| ensures IsCovered(st.Filled(Net(p0.Signed(), t[..k]))) {
        var i, j := MergeSoFar(t, a, b, k);
        var p' := ExitSplits(p0, a, p, i);
        var q' := ExitSplits(p0, b, q, j);
        TableCoveredWhen(st, p0, a[..i], p', b[..j], q', t[..k]);
        ClosedGrows(a, i, LongPut);
        ClosedGrows(a, i, LongCall);
        ClosedGrows(b, j, LongPut);
        ClosedGrows(b, j, LongCall);
      }
    }
  }

  // ----- what a later pass makes of it -----

  /** `open_qty`: the next pass reads each leg's size and takes its direction from its role. */
  function Read(table: Legs): Legs {
    Legs(Abs(table.longPut), Abs(table.longCall), Abs(table.shortPut), Abs(table.shortCall))
  }

  function Abs(n: int): nat { if n < 0 then -n else n }

  /** The reading is the table exactly when no leg has crossed. */
  lemma {:induction false} ReadIsTableWhen(p0: Legs, t: seq<Fill>)
    ensures Read(Net(p0.Signed(), t)).Signed() == Net(p0.Signed(), t) <==> forall role :: !Crossed(p0, t, role)
  {
    var table := Net(p0.Signed(), t);
    if forall role :: !Crossed(p0, t, role) {
      assert !Crossed(p0, t, LongPut) && !Crossed(p0, t, LongCall) && !Crossed(p0, t, ShortPut)
        && !Crossed(p0, t, ShortCall);
    }
  }

  /** Once a long is oversold no close helps: the guard refuses every closing order of any leg. */
  lemma {:induction false} NoCloseIsCovered(st: Structure, held: Legs, role: LegRole, quantity: nat)
    requires st.Protected() && (held.longPut < 0 || held.longCall < 0)
    ensures !IsCovered(st.Filled(held.Set(role, held.Get(role) + Units(SideOf(role, true), quantity))))
  {
    var after := held.Set(role, held.Get(role) + Units(SideOf(role, true), quantity));
    SignedTwice(after);
    CoveredWhen(st, after.Signed());
  }

  /** A second pass that reads the table part-way through the first: what it reads is where the first has come
      to, and from there on the two are exits of that reading. */
  lemma {:induction false} SecondStartsLater(p0: Legs, a: seq<Fill>, p: Legs, i: nat, r: Legs, b: seq<Fill>, q: Legs,
                                             t: seq<Fill>)
    requires p0.NonNegative() && p0.NeverNaked() && ExitFills(p0, a, p) && i <= |a|
    requires r.Signed() == Net(p0.Signed(), a[..i]) && ExitFills(r, b, q) && IsMerge(t, a[i..], b)
    ensures TwoExits(r, a[i..], p, b, q, t)
  {
    var m := ExitSplits(p0, a, p, i);
    ExitKeeps(p0, a[..i], m);
    forall role ensures r.Get(role) == m.Get(role) {
      ExitCloses(p0, a[..i], m, role);
      TableAfter(p0, a[..i], role);
      SignedTwice(r);
    }
    assert r == Legs(r.Get(LongPut), r.Get(LongCall), r.Get(ShortPut), r.Get(ShortCall));
    assert m == Legs(m.Get(LongPut), m.Get(LongCall), m.Get(ShortPut), m.Get(ShortCall));
  }

  /** What two passes over one reading come to, once their rows are in the table as `t`. */
  ghost predicate Overlap(st: Structure, p0: Legs, first: Outcome, a: seq<Fill>, second: Outcome, b: seq<Fill>,
                          t: seq<Fill>)
  {
    match p0
    case Legs(longPut, longCall, shortPut, shortCall) =>
      // a leg crosses zero exactly when more of it was closed than was read
      && (forall role :: Crossed(p0, t, role) <==> Closed(a, role) + Closed(b, role) > p0.Get(role))
      // both report flat exactly when the table holds the reverse of what was read
      && (first == FlatExit && second == FlatExit
        <==> Net(p0.Signed(), t) == Legs(-longPut, -longCall, shortPut, shortCall))
      // one report of flat is true exactly when the other pass filled nothing
      && (first == FlatExit ==> (Net(p0.Signed(), t).Flat() <==> Nothing(b)))
      // the table is covered at every moment exactly when neither long was oversold
      && ((forall k :: 0 <= k <= |t| ==> IsCovered(st.Filled(Net(p0.Signed(), t[..k]))))
          <==> (Closed(a, LongPut) + Closed(b, LongPut) <= longPut
                && Closed(a, LongCall) + Closed(b, LongCall) <= longCall))
  }

  lemma {:induction false} TwoExitsOverlap(st: Structure, p0: Legs, first: Outcome, a: seq<Fill>, p: Legs,
                                           second: Outcome, b: seq<Fill>, q: Legs, t: seq<Fill>)
    requires st.Protected() && TwoExits(p0, a, p, b, q, t)
    requires (first == FlatExit <==> p.Flat()) && (second == FlatExit <==> q.Flat())
    ensures Overlap(st, p0, first, a, second, b, t)
  {
    forall role ensures Crossed(p0, t, role) <==> Closed(a, role) + Closed(b, role) > p0.Get(role) {
      CrossesWhen(p0, a, p, b, q, t, role);
    }
    BothFlatIsReversed(p0, a, p, b, q, t);
    if first == FlatExit {
      FlatIsTrueWhen(p0, a, p, b, q, t);
    }
    CoveredThroughout(st, p0, a, p, b, q, t);
  }

  /** Two passes over one reading of the table, whatever the broker answers each, and whatever order their
      rows reach the table in. */
  method ExitTwice(st: Structure, p0: Legs, terms: Terms)
    returns (first: Outcome, a: seq<Fill>, second: Outcome, b: seq<Fill>)
    requires st.Protected() && p0.NonNegative() && p0.NeverNaked()
    ensures forall t :: IsMerge(t, a, b) ==> Overlap(st, p0, first, a, second, b, t)
  {
    ghost var p, q;
    first, a, p := ExitOnce(st, p0, terms);
    second, b, q := ExitOnce(st, p0, terms);
    forall t | IsMerge(t, a, b) ensures Overlap(st, p0, first, a, second, b, t) {
      TwoExitsOverlap(st, p0, first, a, p, second, b, q, t);
    }
  }

  lemma {:induction false} OneAfterOther(a: seq<Fill>, b: seq<Fill>)
    ensures IsMerge(a + b, a, b)
    decreases |a| + |b|
  {
    if b != [] {
      OneAfterOther(a, b[..|b| - 1]);
      assert (a + b)[..|a + b| - 1] == a + b[..|b| - 1];
    } else if a != [] {
      OneAfterOther(a[..|a| - 1], b);
      assert (a + b)[..|a + b| - 1] == a[..|a| - 1] + b;
    }
  }

  /** The failing family: a put spread of any size read by two passes that both fill in full. Each is flat by
      its own orders; the table holds the reversed spread, a short with nothing further out. */
  lemma {:induction false} BothFill(st: Structure, quantity: int, short: int, long: int)
    requires st.Protected() && quantity > 0
    ensures var p0, a := Legs(quantity, 0, quantity, 0),
        [Fill(ShortPut, Buy, quantity, short), Fill(LongPut, Sell, quantity, long)];
            && TwoExits(p0, a, NONE, a, NONE, a + a)
            && Net(p0.Signed(), a + a) == Legs(-quantity, 0, quantity, 0)
            && !IsCovered(st.Filled(Net(p0.Signed(), a + a)))
  {
    var p0 := Legs(quantity, 0, quantity, 0);
    var buy, sell := Fill(ShortPut, Buy, quantity, short), Fill(LongPut, Sell, quantity, long);
    var a := [buy, sell];
    OneAfterOther(a, a);
    assert a[..1] == [buy] && [buy][..0] == [];
    assert ExitFills(p0, [buy], Legs(quantity, 0, 0, 0));
    assert ExitFills(p0, a, NONE);
    BothFlatIsReversed(p0, a, NONE, a, NONE, a + a);
    CoveredWhen(st, Legs(-quantity, 0, -quantity, 0));
  }

  /** One pass: a venue over the reading, and the exit on it. */
  method ExitOnce(st: Structure, p0: Legs, terms: Terms)
    returns (outcome: Outcome, rows: seq<Fill>, ghost p: Legs)
    requires st.Protected() && p0.NonNegative() && p0.NeverNaked()
    ensures ExitFills(p0, rows, p) && (outcome == FlatExit <==> p.Flat())
  {
    var venue := new OptionVenue(st, p0.Signed());
    var result := new Result(p0);
    InStepMeans(venue, result);
    outcome := RunExit(venue, result, terms);
    rows, p := venue.fills, result.position;
    assert venue.fills[0..] == venue.fills;
  }
}
