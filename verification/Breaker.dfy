/** The execution batch and its circuit breaker (`execute`, kite-momentum-rebalancer/app/main.py). Prices are
    paise. */
module Breaker {
  import opened Sequences

  /** What the batch reads of an order dict. */
  datatype Order = Order(symbol: string, delta: int, refPrice: nat, action: string)

  /** The gateway's answer: a failed status or not, and its error text. */
  datatype Answer = Answer(failed: bool, error: string)

  datatype Result = Sent(symbol: string, action: string, answer: Answer)
    | Aborted(symbol: string, action: string, error: Error)

  // ----- the order of sending -----

  function Abs(x: int): nat {
    if x < 0 then -x else x
  }

  /** What the order does to cash at its reference price. */
  function Cash(o: Order): int {
    -(o.delta * o.refPrice)
  }

  predicate IsBuy(o: Order) {
    o.delta > 0
  }

  /** The sort key `(delta > 0, -abs(delta * ref_price))`, compared. */
  predicate Before(a: Order, b: Order) {
    if IsBuy(a) == IsBuy(b) then Abs(Cash(a)) >= Abs(Cash(b)) else IsBuy(b)
  }

  predicate SortedBatch(s: seq<Order>) {
    forall i, j :: 0 <= i < j < |s| ==> Before(s[i], s[j])
  }

  /** Into a sorted batch, after its equals, so that the sort is stable. */
  function Insert(s: seq<Order>, o: Order): seq<Order> {
    if s == [] || Before(s[|s| - 1], o) then s + [o]
    else Insert(s[..|s| - 1], o) + [s[|s| - 1]]
  }

  /** `sorted([o for o in orders if o["delta"] != 0], key=...)`. */
  function Ordered(orders: seq<Order>): seq<Order> {
    if orders == [] then []
    else
      var o := orders[|orders| - 1];
      if o.delta != 0 then Insert(Ordered(orders[..|orders| - 1]), o) else Ordered(orders[..|orders| - 1])
  }

  function NonZero(orders: seq<Order>): multiset<Order> {
    if orders == [] then multiset{}
    else
      var o := orders[|orders| - 1];
      NonZero(orders[..|orders| - 1]) + if o.delta != 0 then multiset{o} else multiset{}
  }

  lemma {:induction false} InsertIs(s: seq<Order>, o: Order)
    requires SortedBatch(s)
    ensures SortedBatch(Insert(s, o)) && multiset(Insert(s, o)) == multiset(s) + multiset{o}
  {
    if s == [] || Before(s[|s| - 1], o) {
      if s != [] {
        SortedSnoc(s, o);
      }
    } else {
      var front, last := s[..|s| - 1], s[|s| - 1];
      InsertIs(front, o);
      assert s == front + [last];
      LastIsLast(s, o, Insert(front, o));
    }
  }

  /** Sorted batches end with their least. */
  lemma SortedSnoc(s: seq<Order>, o: Order)
    requires SortedBatch(s) && s != [] && Before(s[|s| - 1], o)
    ensures SortedBatch(s + [o])
  {
    var t := s + [o];
    forall i, j | 0 <= i < j < |t| ensures Before(t[i], t[j]) {
      if j == |s| && i < |s| - 1 {
        assert Before(s[i], s[|s| - 1]);
      }
    }
  }

  lemma LastIsLast(s: seq<Order>, o: Order, r: seq<Order>)
    requires SortedBatch(s) && s != [] && !Before(s[|s| - 1], o) && SortedBatch(r)
    requires multiset(r) == multiset(s[..|s| - 1]) + multiset{o}
    ensures SortedBatch(r + [s[|s| - 1]])
  {
    var last := s[|s| - 1];
    var x := r[|r| - 1];
    assert x in multiset(r);
    if x != o {
      assert x in s[..|s| - 1];
      var k :| 0 <= k < |s| - 1 && s[k] == x;
      assert Before(s[k], s[|s| - 1]);
    }
    SortedSnoc(r, last);
  }

  /** The batch is the non-zero orders, sells before buys, each by falling value. */
  lemma {:induction false} OrderedIs(orders: seq<Order>)
    ensures SortedBatch(Ordered(orders)) && multiset(Ordered(orders)) == NonZero(orders)
  {
    if orders != [] {
      OrderedIs(orders[..|orders| - 1]);
      InsertIs(Ordered(orders[..|orders| - 1]), orders[|orders| - 1]);
    }
  }

  /** Sells come first, and within each side the value at the reference price falls. */
  lemma OrderedFalls(orders: seq<Order>, i: nat, j: nat)
    requires i < j < |Ordered(orders)|
    ensures var a, b := Ordered(orders)[i], Ordered(orders)[j];
            && (a.delta > 0 ==> b.delta > 0)
            && ((a.delta > 0) == (b.delta > 0) ==> Value(a) >= Value(b))
  {
    OrderedIs(orders);
    ValueIs(Ordered(orders)[i]);
    ValueIs(Ordered(orders)[j]);
  }

  /** Units at the reference price. */
  function Value(o: Order): int {
    if o.delta > 0 then o.delta * o.refPrice else (-o.delta) * o.refPrice
  }

  lemma ValueIs(o: Order)
    ensures Abs(Cash(o)) == Value(o)
  {
    assert o.delta > 0 ==> o.delta * o.refPrice >= 0;
    assert o.delta <= 0 ==> (-o.delta) * o.refPrice >= 0;
    assert (-o.delta) * o.refPrice == -(o.delta * o.refPrice);
  }

  /** The orders of one side and value, as they come. */
  function Alike(orders: seq<Order>, buy: bool, value: int): seq<Order> {
    if orders == [] then []
    else
      var o := orders[|orders| - 1];
      Alike(orders[..|orders| - 1], buy, value)
      + if o.delta != 0 && (o.delta > 0) == buy && Value(o) == value then [o] else []
  }

  /** The sort is stable: orders of one side and value keep their order. */
  lemma {:induction false} OrderedKeepsOrder(orders: seq<Order>, buy: bool, value: int)
    ensures Alike(Ordered(orders), buy, value) == Alike(orders, buy, value)
  {
    if orders != [] {
      var front, o := orders[..|orders| - 1], orders[|orders| - 1];
      OrderedKeepsOrder(front, buy, value);
      if o.delta != 0 {
        InsertKeepsOrder(Ordered(front), o, buy, value);
      }
    }
  }

  lemma {:induction false} InsertKeepsOrder(s: seq<Order>, o: Order, buy: bool, value: int)
    ensures Alike(Insert(s, o), buy, value) == Alike(s, buy, value) + Alike([o], buy, value)
  {
    assert [o][..0] == [];
    if s == [] || Before(s[|s| - 1], o) {
      assert (s + [o])[..|s|] == s;
    } else {
      var front, last := s[..|s| - 1], s[|s| - 1];
      InsertKeepsOrder(front, o, buy, value);
      assert (Insert(front, o) + [last])[..|Insert(front, o)|] == Insert(front, o);
      ValueIs(last);
      ValueIs(o);
    }
  }

  // ----- cash -----

  function Balance(s: seq<Order>): int {
    if s == [] then 0 else Balance(s[..|s| - 1]) + Cash(s[|s| - 1])
  }

  /** The worst cash balance after any prefix, starting from nothing. */
  function Worst(s: seq<Order>): int {
    if s == [] then 0
    else
      var w := Worst(s[..|s| - 1]);
      if Balance(s) < w then Balance(s) else w
  }

  lemma {:induction false} WorstBelow(s: seq<Order>)
    ensures Worst(s) <= 0 && Worst(s) <= Balance(s)
  {
    if s != [] {
      WorstBelow(s[..|s| - 1]);
    }
  }

  lemma {:induction false} BalanceConcat(a: seq<Order>, b: seq<Order>)
    ensures Balance(a + b) == Balance(a) + Balance(b)
  {
    if b == [] {
      assert a + b == a;
    } else {
      BalanceConcat(a, b[..|b| - 1]);
      assert (a + b)[..|a + b| - 1] == a + b[..|b| - 1];
    }
  }

  lemma {:induction false} BalancePermutes(a: seq<Order>, b: seq<Order>)
    requires multiset(a) == multiset(b)
    ensures Balance(a) == Balance(b)
    decreases |a|
  {
    if a == [] {
      BothEmpty(b);
    } else {
      var k := FoundIn(a, b);
      TakenOut(a, b, k);
      BalancePermutes(a[..|a| - 1], Without(b, k));
      BalanceWithout(b, k);
    }
  }

  lemma {:induction false} BalanceWithout(b: seq<Order>, k: nat)
    requires k < |b|
    ensures Balance(b) == Balance(Without(b, k)) + Cash(b[k])
  {
    var l, r := b[..k], b[k + 1..];
    BalanceSnoc(l, b[k]);
    BalanceConcat(l + [b[k]], r);
    BalanceConcat(l, r);
    assert b == l + [b[k]] + r;
  }

  lemma {:induction false} BalanceSnoc(l: seq<Order>, o: Order)
    ensures Balance(l + [o]) == Balance(l) + Cash(o)
  {
    assert (l + [o])[..|l|] == l;
  }

  lemma CashSigns(o: Order)
    ensures IsBuy(o) ==> Cash(o) <= 0
    ensures !IsBuy(o) ==> Cash(o) >= 0
  {
    if IsBuy(o) {
      assert o.delta * o.refPrice >= 0;
    } else {
      assert (-o.delta) * o.refPrice >= 0;
    }
  }

  /** With sells first, cash only rises and then only falls. */
  lemma {:induction false} WorstOfSorted(s: seq<Order>)
    requires SortedBatch(s)
    ensures Worst(s) == if Balance(s) < 0 then Balance(s) else 0
    ensures (forall i :: 0 <= i < |s| ==> !IsBuy(s[i])) ==> Balance(s) >= 0
  {
    if s != [] {
      var front, last := s[..|s| - 1], s[|s| - 1];
      WorstOfSorted(front);
      CashSigns(last);
      if !IsBuy(last) {
        forall i | 0 <= i < |front| ensures !IsBuy(front[i]) {
          assert Before(s[i], s[|s| - 1]);
        }
      }
    }
  }

  /** No order of the same orders dips less: sells first needs the least cash at hand. */
  lemma {:induction false} SellsFirstIsBest(orders: seq<Order>, other: seq<Order>)
    requires multiset(other) == NonZero(orders)
    ensures Worst(Ordered(orders)) >= Worst(other)
  {
    OrderedIs(orders);
    BalancePermutes(Ordered(orders), other);
    WorstOfSorted(Ordered(orders));
    WorstBelow(other);
  }

  // ----- the breaker -----

  const BREAKER_TRIP := 3
  const ERROR_LENGTH := 80

  /** The error the breaker compares: its first 80 characters; none when the status did not fail or says
      nothing. */
  datatype Error = NoError | Failure(text: string)

  function ErrorOf(a: Answer): Error {
    if !a.failed || a.error == "" then NoError
    else if |a.error| <= ERROR_LENGTH then Failure(a.error) else Failure(a.error[..ERROR_LENGTH])
  }

  /** Two answers are one failure: both failed and say something, and what they say is the same as far as the first
      80 characters. */
  predicate OneFailure(a: Answer, b: Answer) {
    && a.failed && b.failed && a.error != "" && b.error != ""
    && forall k :: 0 <= k < 80 ==> SameAt(a.error, b.error, k)
  }

  predicate SameAt(x: string, y: string, k: nat) {
    if k < |x| && k < |y| then x[k] == y[k] else k >= |x| && k >= |y|
  }

  lemma {:induction false} ErrorsAgreeWhen(a: Answer, b: Answer)
    ensures ErrorOf(a) != NoError && ErrorOf(a) == ErrorOf(b) <==> OneFailure(a, b)
  {
    if ErrorOf(a) != NoError && ErrorOf(b) != NoError {
      SameStart(a.error, b.error);
    }
  }

  function Start(x: string): string {
    if |x| <= 80 then x else x[..80]
  }

  lemma ShorterDiffers(x: string, y: string)
    requires |Start(x)| < |Start(y)|
    ensures exists k :: 0 <= k < 80 && !SameAt(x, y, k) && !SameAt(y, x, k)
  {
    assert !SameAt(x, y, |x|) && !SameAt(y, x, |x|);
  }

  lemma SameStart(x: string, y: string)
    ensures Start(x) == Start(y) <==> forall k :: 0 <= k < 80 ==> SameAt(x, y, k)
  {
    var a, b := Start(x), Start(y);
    if a == b {
      forall k | 0 <= k < 80 ensures SameAt(x, y, k) {
        assert k < |a| ==> x[k] == a[k] && y[k] == b[k];
      }
    }
    if forall k :: 0 <= k < 80 ==> SameAt(x, y, k) {
      if |a| < |b| {
        ShorterDiffers(x, y);
      } else if |b| < |a| {
        ShorterDiffers(y, x);
      }
      forall k | 0 <= k < |a| ensures a[k] == b[k] {
        assert SameAt(x, y, k);
      }
    }
  }

  /** So the breaker trips on the third of three answers running that are one failure. */
  lemma {:induction false} TripsMeans(answers: seq<Answer>, i: nat)
    ensures Trips(Errors(answers), i)
       <==> 2 <= i < |answers| && OneFailure(answers[i - 2], answers[i - 1]) && OneFailure(answers[i - 1], answers[i])
  {
    if 2 <= i < |answers| {
      ErrorsAgreeWhen(answers[i - 2], answers[i - 1]);
      ErrorsAgreeWhen(answers[i - 1], answers[i]);
    }
  }

  function Errors(answers: seq<Answer>): seq<Error> {
    seq(|answers|, i requires 0 <= i < |answers| => ErrorOf(answers[i]))
  }

  /** The third of three failures running with one text. */
  predicate Trips(errors: seq<Error>, i: int) {
    2 <= i < |errors| && errors[i] != NoError && errors[i - 1] == errors[i] && errors[i - 2] == errors[i]
  }

  /** `list.index`: the first equal order. */
  function FirstEqual(s: seq<Order>, o: Order): nat
    requires o in s
    ensures FirstEqual(s, o) < |s| && s[FirstEqual(s, o)] == o
    ensures forall j :: 0 <= j < FirstEqual(s, o) ==> s[j] != o
  {
    if s[0] == o then 0 else 1 + FirstEqual(s[1..], o)
  }

  function SentOf(ordered: seq<Order>, answers: seq<Answer>, n: nat): (r: seq<Result>)
    requires n <= |ordered| && n <= |answers|
    ensures |r| == n && forall i :: 0 <= i < n ==> r[i] == Sent(ordered[i].symbol, ordered[i].action, answers[i])
  {
    if n == 0 then []
    else SentOf(ordered, answers, n - 1) + [Sent(ordered[n - 1].symbol, ordered[n - 1].action, answers[n - 1])]
  }

  function AbortedOf(rest: seq<Order>, error: Error): (r: seq<Result>)
    ensures |r| == |rest| && forall i :: 0 <= i < |rest| ==> r[i] == Aborted(rest[i].symbol, rest[i].action, error)
  {
    if rest == [] then []
    else AbortedOf(rest[..|rest| - 1], error) + [Aborted(rest[|rest| - 1].symbol, rest[|rest| - 1].action, error)]
  }

  /** The last failures running, at most three. */
  ghost predicate RecentIs(recent: seq<Error>, errors: seq<Error>, n: nat)
    requires n <= |errors|
  {
    && |recent| <= BREAKER_TRIP && |recent| <= n
    && (forall k :: 0 <= k < |recent| ==> recent[k] == errors[n - |recent| + k] && recent[k] != NoError)
    && (|recent| < BREAKER_TRIP ==> |recent| == n || errors[n - |recent| - 1] == NoError)
  }

  /** `(recent_errors + [err])[-3:] if err else []`. */
  function Push(recent: seq<Error>, err: Error): seq<Error> {
    if err == NoError then []
    else if |recent| >= BREAKER_TRIP then recent[|recent| + 1 - BREAKER_TRIP..] + [err]
    else recent + [err]
  }

  predicate AllEqual(recent: seq<Error>) {
    |recent| == BREAKER_TRIP && recent[0] == recent[1] == recent[2]
  }

  lemma {:induction false} RecentStep(recent: seq<Error>, errors: seq<Error>, n: nat)
    requires n < |errors| && RecentIs(recent, errors, n)
    ensures RecentIs(Push(recent, errors[n]), errors, n + 1)
  {
    var next := Push(recent, errors[n]);
    if errors[n] != NoError {
      forall k | 0 <= k < |next| ensures next[k] == errors[n + 1 - |next| + k] && next[k] != NoError {
      }
    }
  }

  lemma {:induction false} TripsWhen(recent: seq<Error>, errors: seq<Error>, n: nat)
    requires 0 < n <= |errors| && RecentIs(recent, errors, n)
    ensures Trips(errors, n - 1) <==> AllEqual(recent)
  {
    if |recent| == BREAKER_TRIP {
      assert recent[0] == errors[n - 3] && recent[1] == errors[n - 2] && recent[2] == errors[n - 1];
    }
  }

  /** `n` orders sent without a trip, and the breaker's memory after them. */
  ghost predicate Sending(ordered: seq<Order>, answers: seq<Answer>, errors: seq<Error>, n: nat, results: seq<Result>,
                          recent: seq<Error>)
    requires |answers| == |errors| == |ordered|
  {
    && n <= |ordered| && results == SentOf(ordered, answers, n) && RecentIs(recent, errors, n)
    && forall i :: 0 <= i < n ==> !Trips(errors, i)
  }

  /** What the batch reports: its sent orders and, on a trip, everything after the first order equal to the
      last one sent. */
  function Report(ordered: seq<Order>, answers: seq<Answer>, sent: nat, tripped: bool): seq<Result>
    requires |answers| == |ordered| && sent <= |ordered| && (tripped ==> sent > 0)
  {
    SentOf(ordered, answers, sent)
    + if tripped then AbortedOf(ordered[FirstEqual(ordered, ordered[sent - 1]) + 1..], ErrorOf(answers[sent - 1]))
      else []
  }

  /** The results of a batch that tripped on its `sent`-th order. */
  method Abort(ordered: seq<Order>, answers: seq<Answer>, sent: nat, results: seq<Result>) returns (all: seq<Result>)
    requires |answers| == |ordered| && 0 < sent <= |ordered| && results == SentOf(ordered, answers, sent)
    ensures all == Report(ordered, answers, sent, true)
  {
    all := results;
    var error := ErrorOf(answers[sent - 1]);
    var rest := ordered[FirstEqual(ordered, ordered[sent - 1]) + 1..];
    for k := 0 to |rest|
      invariant all == results + AbortedOf(rest[..k], error)
    {
      assert rest[..k + 1][..k] == rest[..k];
      all := all + [Aborted(rest[k].symbol, rest[k].action, error)];
    }
    assert rest[..|rest|] == rest;
  }

  /** `sent` is just past the first trip, if it tripped; otherwise there is none that far. */
  ghost predicate Stops(errors: seq<Error>, sent: nat, tripped: bool) {
    && (forall i :: 0 <= i < sent - 1 ==> !Trips(errors, i))
    && (tripped <==> sent > 0 && Trips(errors, sent - 1))
  }

  lemma {:induction false} SendingStep(ordered: seq<Order>, answers: seq<Answer>, n: nat, results: seq<Result>,
                                       recent: seq<Error>)
    requires |answers| == |ordered| && n < |ordered| && Sending(ordered, answers, Errors(answers), n, results, recent)
    ensures var more, next := results + [Sent(ordered[n].symbol, ordered[n].action, answers[n])],
        Push(recent, ErrorOf(answers[n]));
            && more == SentOf(ordered, answers, n + 1)
            && (!AllEqual(next) ==> Sending(ordered, answers, Errors(answers), n + 1, more, next))
            && Stops(Errors(answers), n + 1, AllEqual(next))
  {
    var errors := Errors(answers);
    assert errors[n] == ErrorOf(answers[n]);
    RecentStep(recent, errors, n);
    StopsStep(errors, n, Push(recent, errors[n]));
  }

  lemma {:induction false} StopsStep(errors: seq<Error>, n: nat, next: seq<Error>)
    requires n < |errors| && RecentIs(next, errors, n + 1) && forall i :: 0 <= i < n ==> !Trips(errors, i)
    ensures Stops(errors, n + 1, AllEqual(next))
    ensures !AllEqual(next) ==> forall i :: 0 <= i < n + 1 ==> !Trips(errors, i)
  {
    TripsWhen(next, errors, n + 1);
  }

  /** One order, its result and the breaker's memory. */
  method SendNext(ordered: seq<Order>, answers: seq<Answer>, n: nat, results: seq<Result>, recent: seq<Error>)
    returns (more: seq<Result>, next: seq<Error>)
    requires |answers| == |ordered| && n < |ordered| && Sending(ordered, answers, Errors(answers), n, results, recent)
    ensures more == SentOf(ordered, answers, n + 1) && Stops(Errors(answers), n + 1, AllEqual(next))
    ensures !AllEqual(next) ==> Sending(ordered, answers, Errors(answers), n + 1, more, next)
  {
    SendingStep(ordered, answers, n, results, recent);
    more := results + [Sent(ordered[n].symbol, ordered[n].action, answers[n])];
    next := Push(recent, ErrorOf(answers[n]));
  }

  /** The batch: orders go out as far as the first trip, and all of them when there is none. With one order per
      symbol and action, each has one result, in its place. */
  method Execute(orders: seq<Order>, answers: seq<Answer>) returns (results: seq<Result>, sent: nat, tripped: bool)
    requires |answers| == |Ordered(orders)|
    ensures sent <= |answers| && Stops(Errors(answers), sent, tripped) && (!tripped ==> sent == |answers|)
    ensures results == Report(Ordered(orders), answers, sent, tripped)
    ensures OnePerAction(orders) ==> OneEach(Ordered(orders), answers, sent, results)
  {
    var ordered := Ordered(orders);
    results, sent, tripped := [], 0, false;
    var recent: seq<Error> := [];
    while sent < |ordered|
      invariant sent <= |ordered| && Sending(ordered, answers, Errors(answers), sent, results, recent)
    {
      results, recent := SendNext(ordered, answers, sent, results, recent);
      sent := sent + 1;
      if AllEqual(recent) {
        results := Abort(ordered, answers, sent, results);
        tripped := true;
        PlanReportsEach(orders, answers, sent, true);
        return;
      }
    }
    SendingEnds(ordered, answers, results, recent);
    PlanReportsEach(orders, answers, sent, false);
  }

  lemma {:induction false} SendingEnds(ordered: seq<Order>, answers: seq<Answer>, results: seq<Result>,
                                       recent: seq<Error>)
    requires |answers| == |ordered| && Sending(ordered, answers, Errors(answers), |ordered|, results, recent)
    ensures results == Report(ordered, answers, |ordered|, false)
    ensures Stops(Errors(answers), |ordered|, false)
  {
    assert results + [] == results;
  }

  // ----- one result an order -----

  /** Every order has one result, in its place: the answer to it if it was sent, else the error that stopped
      the batch. */
  predicate OneEach(ordered: seq<Order>, answers: seq<Answer>, sent: nat, results: seq<Result>)
    requires |answers| == |ordered|
  {
    && sent <= |ordered| && |results| == |ordered| && (sent < |ordered| ==> sent > 0)
    && (forall i :: 0 <= i < sent ==> results[i] == Sent(ordered[i].symbol, ordered[i].action, answers[i]))
    && (forall i :: sent <= i < |ordered| ==>
      results[i] == Aborted(ordered[i].symbol, ordered[i].action, ErrorOf(answers[sent - 1])))
  }

  /** A batch that did not trip reports each order once; one that tripped does so exactly when no earlier order
      equals the one it tripped on. */
  lemma {:induction false} OneResultEach(ordered: seq<Order>, answers: seq<Answer>, sent: nat, tripped: bool)
    requires |answers| == |ordered| && sent <= |ordered|
    requires if tripped then sent > 0 else sent == |ordered|
    ensures OneEach(ordered, answers, sent, Report(ordered, answers, sent, tripped))
       <==> (tripped ==> forall j :: 0 <= j < sent - 1 ==> ordered[j] != ordered[sent - 1])
  {
    if tripped {
      if FirstEqual(ordered, ordered[sent - 1]) < sent - 1 {
        RepeatedAreMore(ordered, answers, sent);
      } else {
        RestInPlace(ordered, answers, sent);
      }
    }
  }

  lemma {:induction false} RepeatedAreMore(ordered: seq<Order>, answers: seq<Answer>, sent: nat)
    requires |answers| == |ordered| && 0 < sent <= |ordered| && FirstEqual(ordered, ordered[sent - 1]) < sent - 1
    ensures |Report(ordered, answers, sent, true)| > |ordered|
    ensures exists j :: 0 <= j < sent - 1 && ordered[j] == ordered[sent - 1]
  {
    var at := FirstEqual(ordered, ordered[sent - 1]);
    assert ordered[at] == ordered[sent - 1];
  }

  lemma {:induction false} RestInPlace(ordered: seq<Order>, answers: seq<Answer>, sent: nat)
    requires |answers| == |ordered| && 0 < sent <= |ordered| && FirstEqual(ordered, ordered[sent - 1]) >= sent - 1
    ensures OneEach(ordered, answers, sent, Report(ordered, answers, sent, true))
    ensures forall j :: 0 <= j < sent - 1 ==> ordered[j] != ordered[sent - 1]
  {
    var at := FirstEqual(ordered, ordered[sent - 1]);
    assert at == sent - 1;
    var rest := ordered[sent..];
    assert forall i :: sent <= i < |ordered| ==> rest[i - sent] == ordered[i];
  }

  predicate SameKey(a: Order, b: Order) {
    a.symbol == b.symbol && a.action == b.action
  }

  /** One order per symbol and action, as a plan holds. */
  predicate OnePerAction(orders: seq<Order>) {
    forall i, j :: 0 <= i < j < |orders| ==> !SameKey(orders[i], orders[j])
  }

  lemma {:induction false} InsertKeeps(s: seq<Order>, o: Order)
    requires OnePerAction(s) && forall k :: 0 <= k < |s| ==> !SameKey(s[k], o)
    ensures OnePerAction(Insert(s, o)) && forall x :: x in Insert(s, o) ==> x in s || x == o
  {
    if s != [] && !Before(s[|s| - 1], o) {
      InsertKeeps(s[..|s| - 1], o);
      var r := Insert(s[..|s| - 1], o);
      forall k | 0 <= k < |r| ensures !SameKey(r[k], s[|s| - 1]) {
        assert r[k] in r;
      }
    }
  }

  /** Dropping the zero orders and sorting keeps them so. */
  lemma {:induction false} OrderedKeeps(orders: seq<Order>)
    requires OnePerAction(orders)
    ensures OnePerAction(Ordered(orders)) && forall x :: x in Ordered(orders) ==> x in orders
  {
    if orders != [] {
      var front, last := orders[..|orders| - 1], orders[|orders| - 1];
      OrderedKeeps(front);
      if last.delta != 0 {
        var r := Ordered(front);
        forall k | 0 <= k < |r| ensures !SameKey(r[k], last) {
          assert r[k] in front;
        }
        InsertKeeps(r, last);
      }
    }
  }

  /** A plan's batch, tripped or not, reports each of its orders once and in order. */
  lemma {:induction false} PlanReportsEach(orders: seq<Order>, answers: seq<Answer>, sent: nat, tripped: bool)
    requires |answers| == |Ordered(orders)| && sent <= |answers|
    requires if tripped then sent > 0 else sent == |answers|
    ensures OnePerAction(orders)
        ==> OneEach(Ordered(orders), answers, sent, Report(Ordered(orders), answers, sent, tripped))
  {
    if OnePerAction(orders) {
      OrderedKeeps(orders);
      var ordered := Ordered(orders);
      assert tripped ==> forall j :: 0 <= j < sent - 1 ==> !SameKey(ordered[j], ordered[sent - 1]);
      OneResultEach(ordered, answers, sent, tripped);
    }
  }

  lemma {:induction false} EqualsKeepOrder(o: Order, p: Order)
    requires o.delta != 0 && p.delta != 0 && IsBuy(o) == IsBuy(p) && Abs(Cash(o)) == Abs(Cash(p))
    ensures Ordered([o, p, o]) == [o, p, o]
  {
    assert [o][..0] == [] && [o, p][..1] == [o] && [o, p, o][..2] == [o, p];
    assert Ordered([o]) == [o];
    assert Ordered([o, p]) == [o, p];
  }

  lemma {:induction false} AbortedTwo(o: Order, p: Order, error: Error)
    ensures AbortedOf([o, p], error) == [Aborted(o.symbol, o.action, error), Aborted(p.symbol, p.action, error)]
  {
    assert [o, p][..1] == [o] && [o][..0] == [];
    assert AbortedOf([o], error) == [Aborted(o.symbol, o.action, error)];
  }

  /** A plan written by hand with one order twice and another of its value between: three equal failures trip it
      on the second copy, and the two orders after the first copy, both sent, are reported again as aborted. */
  lemma {:induction false} RepeatedOrder(o: Order, p: Order, answer: Answer)
    requires o.delta != 0 && p.delta != 0 && o != p && IsBuy(o) == IsBuy(p) && Abs(Cash(o)) == Abs(Cash(p))
    requires ErrorOf(answer) != NoError
    ensures Ordered([o, p, o]) == [o, p, o]
    ensures var answers := [answer, answer, answer];
            var error := ErrorOf(answer);
            && Stops(Errors(answers), 3, true)
            && Report([o, p, o], answers, 3, true)
            == SentOf([o, p, o], answers, 3) + [Aborted(p.symbol, p.action, error), Aborted(o.symbol, o.action, error)]
  {
    var ordered, answers, error := [o, p, o], [answer, answer, answer], ErrorOf(answer);
    assert Errors(answers) == [error, error, error];
    EqualsKeepOrder(o, p);
    assert FirstEqual(ordered, o) == 0;
    assert ordered[1..] == [p, o];
    AbortedTwo(p, o, error);
  }
}
